/**
 * How the routes read stored columns back: `safeJsonParse` on a cell, and
 * how JavaScript lists (`Object.entries`) and reads (`v[key]`) the own
 * properties of the value it produces.
 */
module StoredJson {
  import opened Wrappers
  import opened Strings
  import opened Json
  import opened Database

  /** `JSON.parse` on a text, which the model leaves undefined: None stands for the SyntaxError it throws. */
  type Parser = string -> Option<Json>

  /** JavaScript truthiness of a cell as the driver hands it over: null, a string or a number. */
  predicate CellTruthy(c: Cell) {
    match c
    case NullCell => false
    case TextCell(s) => s != ""
    case IntCell(n) => n != 0
  }

  /**
   * `safeJsonParse`: null for a falsy cell, the parsed value when the text
   * parses, and the raw text when it does not. A number's text always
   * parses back to the number.
   */
  function SafeJsonParse(c: Cell, parse: Parser): (r: Json)
    ensures !CellTruthy(c) ==> r == JNull
    ensures c.IntCell? && c.n != 0 ==> r == JNum(c.n)
    ensures c.TextCell? && c.text != "" && parse(c.text).None? ==> r == JStr(c.text)
    ensures c.TextCell? && c.text != "" && parse(c.text).Some? ==> r == parse(c.text).value
  {
    match c
    case NullCell => JNull
    case IntCell(n) => if n == 0 then JNull else JNum(n)
    case TextCell(s) =>
      if s == "" then JNull
      else match parse(s)
        case Some(v) => v
        case None => JStr(s)
  }

  /**
   * An object or array the store wrote as JSON text comes back from
   * `safeJsonParse` as the same value, provided `JSON.parse` reads back what
   * `JSON.stringify` wrote.
   */
  lemma StoredThenRead(v: Json, parse: Parser)
    requires v.JArr? || v.JObj?
    requires parse(Stringify(v)) == Some(v)
    ensures SafeJsonParse(StoredCell(v), parse) == v
  {
    assert Stringify(v)[0] in "[{";
  }

  /**
   * `v[key]` for a value that is not null, over its own properties: an
   * object's last member under `key`, an array's item or a string's
   * character at an index key; None is `undefined`.
   */
  function Property(v: Json, key: string): (r: Option<Json>)
    ensures v.JObj? ==> (r.None? <==> forall i :: 0 <= i < |v.members| ==> v.members[i].0 != key)
    ensures v.JObj? && r.Some? ==> exists i :: 0 <= i < |v.members| && v.members[i] == (key, r.value)
    ensures v.JNull? || v.JBool? || v.JNum? ==> r.None?
  {
    match v
    case JObj(ms) => Lookup(ms, key)
    case _ => Lookup(ObjectEntries(v), key)
  }

  /** Reading a key agrees with the entries `Object.entries` lists. */
  lemma PropertyIsEntry(v: Json, key: string)
    ensures Property(v, key) == Lookup(ObjectEntries(v), key)
  {
    if v.JObj? {
      LookupEnumerated(v.members, key);
    }
  }

  /**
   * The entries of a path -> content object the run stored are its files,
   * each content a string, when the files are listed as an object lists its
   * keys: each path once, array-index paths first and ascending.
   */
  lemma FilesEntries(files: Files)
    requires PropertyOrder(Keys(files))
    ensures ObjectEntries(FilesJson(files)) == FilesJson(files).members
    ensures |ObjectEntries(FilesJson(files))| == |files|
    ensures forall i :: 0 <= i < |files| ==> ObjectEntries(FilesJson(files))[i] == (files[i].0, JStr(files[i].1))
  {
    var v := FilesJson(files);
    assert KeysOf(v.members) == Keys(files);
    EnumeratedOrdered(v.members);
  }

  /** Reading a path from stored files finds that path's content, and nothing for a path not written. */
  lemma FilesProperty(files: Files, path: string)
    ensures Property(FilesJson(files), path).Some? ==>
      exists i :: 0 <= i < |files| && files[i].0 == path && Property(FilesJson(files), path).value == JStr(files[i].1)
    ensures (forall i :: 0 <= i < |files| ==> files[i].0 != path) ==> Property(FilesJson(files), path).None?
  {
    FilesLookup(files, path);
  }
}
