/** The Python values that flow between the backend's extractors and its handlers: strings,
    lists, dicts, LangChain `Document`s and other objects, with Python's truthiness, `str()`,
    `repr()`, `dict.get` and `str.join`; the exceptions they raise; and the dicts the HTTP
    handlers return. */
module PyValues {
  import opened PyStrings
  import opened Outcomes

  /** A LangChain `Document`: page content plus a metadata dict (kept in insertion order). */
  datatype Document = Document(pageContent: string, metadata: seq<(string, string)>)

  /** A dynamically typed Python value. `PyDict` keeps its entries in insertion order, keys
      distinct. `PyObject` stands for any other object (a number, a DataFrame record value),
      given by what `str()` and `repr()` print for it and by its truthiness. */
  datatype Value =
    | PyNone
    | PyStr(s: string)
    | PyList(items: seq<Value>)
    | PyDict(entries: seq<(string, Value)>)
    | PyDoc(doc: Document)
    | PyObject(strText: string, reprText: string, truthy: bool)

  /** Python's `bool(v)`. */
  predicate Truthy(v: Value) {
    match v
    case PyNone => false
    case PyStr(s) => s != ""
    case PyList(items) => items != []
    case PyDict(entries) => entries != []
    case PyDoc(_) => true
    case PyObject(_, _, t) => t
  }

  /** One character of a string literal as `repr()` writes it, `q` being the quote in use. */
  function EscapeChar(c: char, q: char): string {
    if c == '\\' || c == q then ['\\', c]
    else if c == '\n' then "\\n"
    else if c == '\r' then "\\r"
    else if c == '\t' then "\\t"
    else [c]
  }

  function EscapeChars(s: string, q: char): string {
    if s == [] then "" else EscapeChar(s[0], q) + EscapeChars(s[1..], q)
  }

  /** `repr(s)` for a string: single quotes unless the text holds a single quote and no double one. */
  function StrRepr(s: string): (r: string)
    ensures |r| >= 2 && (r[0] == '\'' || r[0] == '"') && r[|r| - 1] == r[0]
  {
    var q := if '\'' in s && '"' !in s then '"' else '\'';
    [q] + EscapeChars(s, q) + [q]
  }

  /** `str(d)` for a LangChain Document. */
  function DocumentStr(d: Document): string {
    "page_content='" + d.pageContent + "'"
    + if d.metadata == [] then "" else " metadata=" + MetadataRepr(d.metadata)
  }

  /** `repr(d)` for a LangChain Document: the model's fields other than an unset `id`. */
  function DocumentRepr(d: Document): string {
    "Document(metadata=" + MetadataRepr(d.metadata) + ", page_content=" + StrRepr(d.pageContent) + ")"
  }

  function MetadataRepr(m: seq<(string, string)>): string {
    "{" + Join(", ", seq(|m|, i requires 0 <= i < |m| => StrRepr(m[i].0) + ": " + StrRepr(m[i].1))) + "}"
  }

  /** Python's `repr(v)`. */
  function Repr(v: Value): string {
    match v
    case PyNone => "None"
    case PyStr(s) => StrRepr(s)
    case PyList(items) =>
      "[" + Join(", ", seq(|items|, i requires 0 <= i < |items| => Repr(items[i]))) + "]"
    case PyDict(entries) =>
      "{" + Join(", ", seq(|entries|, i requires 0 <= i < |entries| =>
        StrRepr(entries[i].0) + ": " + Repr(entries[i].1))) + "}"
    case PyDoc(d) => DocumentRepr(d)
    case PyObject(_, r, _) => r
  }

  /** Python's `str(v)`: the text itself for a string, `repr` for containers and `None`. */
  function Str(v: Value): string {
    match v
    case PyStr(s) => s
    case PyDoc(d) => DocumentStr(d)
    case PyObject(t, _, _) => t
    case _ => Repr(v)
  }

  /** `d.get(key, default)` on a dict's entries. */
  function DictGet(entries: seq<(string, Value)>, key: string, default: Value): (r: Value)
    ensures (forall i :: 0 <= i < |entries| ==> entries[i].0 != key) ==> r == default
    ensures (exists i :: 0 <= i < |entries| && entries[i].0 == key) ==>
      exists i :: 0 <= i < |entries| && entries[i].0 == key && r == entries[i].1
  {
    if entries == [] then default
    else if entries[0].0 == key then entries[0].1
    else DictGet(entries[1..], key, default)
  }

  /** `sep.join(parts)` on Python values: `None` stands for the `TypeError` raised when a part
      is not a string. */
  function StrJoin(sep: string, parts: seq<Value>): (r: Option<string>)
    ensures r.Some? <==> forall i :: 0 <= i < |parts| ==> parts[i].PyStr?
    ensures r.Some? ==> r.value == Join(sep, seq(|parts|, i requires 0 <= i < |parts| => parts[i].s))
  {
    if forall i :: 0 <= i < |parts| ==> parts[i].PyStr?
    then Some(Join(sep, seq(|parts|, i requires 0 <= i < |parts| => parts[i].s)))
    else None
  }

  /** The exceptions of the backend's code paths; `message` is what `str(e)` prints. */
  datatype ExceptionKind = ValueError | TypeError | AttributeError | IndexError | KeyError | PineconeException | OtherError
  datatype Exception = Exception(kind: ExceptionKind, message: string)

  /** What an HTTP handler hands back: a JSON dict, or an exception it does not catch
      (which the web framework turns into a server error). */
  datatype Response =
    | Message(message: string)                               // {"message": m}
    | MessageWith(message: string, key: string, payload: Value) // {"message": m, key: payload}
    | Error(error: string)                                   // {"error": e}
    | Raised(exception: Exception)
}
