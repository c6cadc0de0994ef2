/** The records of the configuration screen: a value stream owns an ordered
    list of production lines. Ids are plain strings with no uniqueness
    guarantee of their own. */
module Records {
  import opened Wrappers

  /** `ProductionLine` */
  datatype Line = Line(id: string, name: string, description: string, code: string, isActive: bool)

  /** `ValueStream`; `lines` is its `productionLines` array. */
  datatype Stream = Stream(id: string, name: string, description: string, code: string,
                           isActive: bool, lines: seq<Line>)

  /** The four fields a form edits: `Omit<ProductionLine, 'id'>` and
      `Omit<ValueStream, 'id' | 'productionLines'>` have this same shape. */
  datatype Fields = Fields(name: string, description: string, code: string, isActive: bool)

  function LineFields(l: Line): Fields {
    Fields(l.name, l.description, l.code, l.isActive)
  }

  function StreamFields(s: Stream): Fields {
    Fields(s.name, s.description, s.code, s.isActive)
  }

  /** A new line made of the form fields and a given id. */
  function NewLine(id: string, f: Fields): (l: Line)
    ensures l.id == id && LineFields(l) == f
  {
    Line(id, f.name, f.description, f.code, f.isActive)
  }

  /** A new stream made of the form fields, a given id and no lines. */
  function NewStream(id: string, f: Fields): (s: Stream)
    ensures s.id == id && StreamFields(s) == f && s.lines == []
  {
    Stream(id, f.name, f.description, f.code, f.isActive, [])
  }

  /** Overwrites a line's four form fields and keeps its id. */
  function WithLineFields(l: Line, f: Fields): (r: Line)
    ensures r.id == l.id && LineFields(r) == f
    ensures f == LineFields(l) ==> r == l
  {
    l.(name := f.name, description := f.description, code := f.code, isActive := f.isActive)
  }

  /** Overwrites a stream's four form fields and keeps the
      id and the production lines. */
  function WithStreamFields(s: Stream, f: Fields): (r: Stream)
    ensures r.id == s.id && r.lines == s.lines && StreamFields(r) == f
    ensures f == StreamFields(s) ==> r == s
  {
    s.(name := f.name, description := f.description, code := f.code, isActive := f.isActive)
  }

  /** The blank form a modal shows when it is opened without initial data. */
  const EmptyForm := Fields("", "", "", true)

  /** The effect that initialises a modal's form when it opens: the initial
      data when there is some, the blank form otherwise. */
  function InitialForm(initialData: Option<Fields>): (f: Fields)
    ensures initialData.Some? ==> f == initialData.value
    ensures initialData.None? ==> f.name == f.description == f.code == "" && f.isActive
  {
    initialData.GetOr(EmptyForm)
  }

  /** JavaScript truthiness of a `string | null` value: null and the empty
      string are the only falsy values. */
  predicate Truthy(o: Option<string>): (b: bool)
    ensures !b <==> o == None || o == Some("")
  {
    o.Some? && o.value != ""
  }
}
