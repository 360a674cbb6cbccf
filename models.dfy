/**
 * The domain vocabulary: JSON values, the CouchDB document with its wire layout
 * (`_id`, optional `_rev`, the data's own fields flattened beside them), and the
 * domain error kinds with their display texts.
 */
module Models {
  import opened Common

  /** A JSON value. Objects are unordered maps from key to value; numbers are integers. */
  datatype Json =
    | JNull
    | JBool(b: bool)
    | JNumber(n: int)
    | JString(s: string)
    | JArray(items: seq<Json>)
    | JObject(fields: map<string, Json>)

  /** A CouchDB document: `rev` is None until the backend has stored it. */
  datatype CouchDbDocument = CouchDbDocument(id: string, rev: Option<string>, data: Json)

  /**
   * The domain's error kinds. `WebSocketError` is the broker's kind: the broker reports
   * its failures under that name although the error enum does not declare it.
   */
  datatype DomainError =
    | InvalidMessage(msg: string)
    | AuthError(msg: string)
    | CouchDbError(msg: string)
    | HttpProxyError(msg: string)
    | WebSocketError(msg: string)

  /** The fixed text that the display of each kind starts with. */
  function DisplayPrefix(e: DomainError): string
  {
    match e
    case InvalidMessage(_) => "Invalid message format: "
    case AuthError(_) => "Authentication error: "
    case CouchDbError(_) => "CouchDB error: "
    case HttpProxyError(_) => "HTTP proxy error: "
    case WebSocketError(_) => "WebSocket error: "
  }

  /** `Display` of a domain error: the kind's prefix followed by the message. */
  function Display(e: DomainError): (r: string)
    ensures StartsWith(r, DisplayPrefix(e)) && r[|DisplayPrefix(e)|..] == e.msg
  {
    DisplayPrefix(e) + e.msg
  }

  /** The display text identifies the error: its kind and its message. */
  lemma DisplayInjective(a: DomainError, b: DomainError)
    requires Display(a) == Display(b)
    ensures a == b
  {
    assert Display(a)[0] == DisplayPrefix(a)[0];
    assert Display(b)[0] == DisplayPrefix(b)[0];
    assert DisplayPrefix(a) == DisplayPrefix(b);
    assert a.msg == Display(a)[|DisplayPrefix(a)|..];
  }

  // ---------------------------------------------------------------------------------
  // Wire layout of a document

  datatype SerdeError =
    | FlattenUnsupported
    | MissingField(field: string)
    | DuplicateField(field: string)
    | InvalidType(field: string)

  /**
   * `order` lists every key of `m` exactly once: the order in which the object's map
   * hands out its entries.
   */
  predicate IsKeyOrder(order: seq<string>, m: map<string, Json>) {
    && (forall i :: 0 <= i < |order| ==> order[i] in m)
    && (forall k :: k in m ==> k in order)
    && (forall i, j :: 0 <= i < j < |order| ==> order[i] != order[j])
  }

  /** The entries of a JSON object, in the given key order. */
  function Entries(m: map<string, Json>, order: seq<string>): (r: seq<(string, Json)>)
    requires forall i :: 0 <= i < |order| ==> order[i] in m
    ensures |r| == |order|
    ensures forall i :: 0 <= i < |r| ==> r[i] == (order[i], m[order[i]])
  {
    seq(|order|, i requires 0 <= i < |order| => (order[i], m[order[i]]))
  }

  /** The object entries a document serialises to, in writing order. */
  function DocumentHeader(d: CouchDbDocument): seq<(string, Json)>
  {
    [("_id", JString(d.id))] + (if d.rev.Some? then [("_rev", JString(d.rev.value))] else [])
  }

  /**
   * Serialising a document writes `_id`, then `_rev` only when there is one, then the
   * data's own fields at the same level. Data that is null contributes nothing; data
   * that is not an object or null cannot be flattened. `order` is the order in which
   * the data object hands out its keys.
   */
  function SerializeDocument(d: CouchDbDocument, order: seq<string>): (r: Result<seq<(string, Json)>, SerdeError>)
    requires d.data.JObject? ==> IsKeyOrder(order, d.data.fields)
    ensures r.Ok? <==> d.data.JObject? || d.data.JNull?
    ensures r.Err? ==> r.error == FlattenUnsupported
    ensures r.Ok? ==> |r.value| > 0 && r.value[0] == ("_id", JString(d.id))
  {
    match d.data
    case JObject(fields) => Ok(DocumentHeader(d) + Entries(fields, order))
    case JNull => Ok(DocumentHeader(d))
    case _ => Err(FlattenUnsupported)
  }

  /** What deserialisation has collected so far: `_id`, `_rev` and every other field. */
  datatype Collected = Collected(id: Option<string>, rev: Option<Option<string>>, rest: map<string, Json>)

  function CollectFields(es: seq<(string, Json)>, acc: Collected): Result<Collected, SerdeError>
    decreases |es|
  {
    if es == [] then Ok(acc)
    else
      var (k, v) := es[0];
      if k == "_id" then
        if acc.id.Some? then Err(DuplicateField("_id"))
        else if v.JString? then CollectFields(es[1..], acc.(id := Some(v.s)))
        else Err(InvalidType("_id"))
      else if k == "_rev" then
        if acc.rev.Some? then Err(DuplicateField("_rev"))
        else if v.JString? then CollectFields(es[1..], acc.(rev := Some(Some(v.s))))
        else if v.JNull? then CollectFields(es[1..], acc.(rev := Some(None)))
        else Err(InvalidType("_rev"))
      else CollectFields(es[1..], acc.(rest := acc.rest[k := v]))
  }

  /**
   * Deserialising the entries of an object into a document: `_id` must be present
   * exactly once and be a string, `_rev` may be absent, null or a string, and every
   * other field goes into the data object.
   */
  function DeserializeDocument(es: seq<(string, Json)>): (r: Result<CouchDbDocument, SerdeError>)
    ensures r.Ok? ==> r.value.data.JObject?
    ensures es == [] ==> r == Err(MissingField("_id"))
  {
    match CollectFields(es, Collected(None, None, map[]))
    case Err(e) => Err(e)
    case Ok(c) =>
      if c.id.None? then Err(MissingField("_id"))
      else Ok(CouchDbDocument(c.id.value, if c.rev.Some? then c.rev.value else None, JObject(c.rest)))
  }

  /** Entries without `_id` and `_rev` keys only grow the data object. */
  lemma {:induction false} CollectPlainFields(es: seq<(string, Json)>, acc: Collected)
    requires forall i :: 0 <= i < |es| ==> es[i].0 != "_id" && es[i].0 != "_rev"
    requires forall i, j :: 0 <= i < j < |es| ==> es[i].0 != es[j].0
    ensures CollectFields(es, acc).Ok?
    ensures CollectFields(es, acc).value.id == acc.id && CollectFields(es, acc).value.rev == acc.rev
    ensures forall i :: 0 <= i < |es| ==>
      (es[i].0 in CollectFields(es, acc).value.rest && CollectFields(es, acc).value.rest[es[i].0] == es[i].1)
    ensures forall k :: k in CollectFields(es, acc).value.rest ==>
      k in acc.rest || exists i :: 0 <= i < |es| && es[i].0 == k
    ensures forall k :: k in acc.rest && (forall i :: 0 <= i < |es| ==> es[i].0 != k) ==>
      k in CollectFields(es, acc).value.rest && CollectFields(es, acc).value.rest[k] == acc.rest[k]
    decreases |es|
  {
    if es != [] {
      var (k, v) := es[0];
      var acc' := acc.(rest := acc.rest[k := v]);
      CollectPlainFields(es[1..], acc');
      var out := CollectFields(es, acc).value;
      assert out == CollectFields(es[1..], acc').value;
      forall i | 0 <= i < |es| ensures es[i].0 in out.rest && out.rest[es[i].0] == es[i].1 {
        if i > 0 {
          assert es[1..][i - 1] == es[i];
        }
      }
      forall key | key in out.rest ensures key in acc.rest || exists i :: 0 <= i < |es| && es[i].0 == key {
        if key !in acc'.rest {
          var j :| 0 <= j < |es[1..]| && es[1..][j].0 == key;
          assert es[j + 1].0 == key;
        } else if key == k {
          assert es[0].0 == key;
        }
      }
      forall key | key in acc.rest && (forall i :: 0 <= i < |es| ==> es[i].0 != key)
        ensures key in out.rest && out.rest[key] == acc.rest[key]
      {
        assert es[0].0 != key;
        forall i | 0 <= i < |es[1..]| ensures es[1..][i].0 != key {
          assert es[1..][i] == es[i + 1];
        }
      }
    }
  }

  /** Reading the header back records the document's id and, when present, its rev. */
  lemma CollectHeader(d: CouchDbDocument, es: seq<(string, Json)>)
    ensures CollectFields(DocumentHeader(d) + es, Collected(None, None, map[]))
         == CollectFields(es, Collected(Some(d.id), if d.rev.Some? then Some(d.rev) else None, map[]))
  {
    var hes := DocumentHeader(d) + es;
    var afterId := Collected(Some(d.id), None, map[]);
    assert hes[0] == ("_id", JString(d.id));
    assert CollectFields(hes, Collected(None, None, map[])) == CollectFields(hes[1..], afterId);
    if d.rev.Some? {
      assert hes[1..][0] == ("_rev", JString(d.rev.value));
      assert hes[1..][1..] == es;
    } else {
      assert hes[1..] == es;
    }
  }

  /**
   * Writing a document and reading it back gives the same id, rev and data, provided the
   * data is an object (or null, which reads back as the empty object) whose own keys do
   * not collide with `_id` and `_rev`.
   */
  lemma DocumentRoundTrip(d: CouchDbDocument, order: seq<string>)
    requires d.data.JObject? || d.data.JNull?
    requires d.data.JObject? ==> IsKeyOrder(order, d.data.fields)
    requires d.data.JObject? ==> "_id" !in d.data.fields && "_rev" !in d.data.fields
    ensures SerializeDocument(d, order).Ok?
    ensures DeserializeDocument(SerializeDocument(d, order).value)
         == Ok(d.(data := JObject(if d.data.JObject? then d.data.fields else map[])))
  {
    var m: map<string, Json> := if d.data.JObject? then d.data.fields else map[];
    var keys := if d.data.JObject? then order else [];
    var es := if d.data.JObject? then Entries(m, order) else [];
    var hes := DocumentHeader(d) + es;
    assert SerializeDocument(d, order).value == hes;
    var afterHead := Collected(Some(d.id), if d.rev.Some? then Some(d.rev) else None, map[]);
    CollectHeader(d, es);
    PlainDataCollected(m, keys, es, afterHead);
    var c := CollectFields(es, afterHead).value;
    assert CollectFields(hes, Collected(None, None, map[])) == Ok(c);
    assert c == afterHead.(rest := m);
  }

  /** An object's entries, read from a state with no data fields yet, give back the object. */
  lemma PlainDataCollected(m: map<string, Json>, order: seq<string>, es: seq<(string, Json)>, acc: Collected)
    requires IsKeyOrder(order, m) && "_id" !in m && "_rev" !in m
    requires es == Entries(m, order)
    requires acc.rest == map[]
    ensures CollectFields(es, acc) == Ok(acc.(rest := m))
  {
    EntriesArePlain(m, order, es);
    CollectPlainFields(es, acc);
    var c := CollectFields(es, acc).value;
    CollectedRestIsObject(m, order, es, c.rest);
  }

  /** The entries of an object without `_id` and `_rev` keys name each key once and neither of those. */
  lemma EntriesArePlain(m: map<string, Json>, order: seq<string>, es: seq<(string, Json)>)
    requires IsKeyOrder(order, m) && "_id" !in m && "_rev" !in m
    requires es == Entries(m, order)
    ensures forall i :: 0 <= i < |es| ==> es[i].0 != "_id" && es[i].0 != "_rev"
    ensures forall i, j :: 0 <= i < j < |es| ==> es[i].0 != es[j].0
  {
    forall i | 0 <= i < |es| ensures es[i].0 != "_id" && es[i].0 != "_rev" {
      assert es[i].0 in m;
    }
  }

  /** A map holding exactly the object's entries, and nothing else, is the object. */
  lemma CollectedRestIsObject(m: map<string, Json>, order: seq<string>, es: seq<(string, Json)>, rest: map<string, Json>)
    requires IsKeyOrder(order, m)
    requires es == Entries(m, order)
    requires forall i :: 0 <= i < |es| ==> es[i].0 in rest && rest[es[i].0] == es[i].1
    requires forall k :: k in rest ==> exists i :: 0 <= i < |es| && es[i].0 == k
    ensures rest == m
  {
    forall key | key in m ensures key in rest && rest[key] == m[key] {
      var i :| 0 <= i < |order| && order[i] == key;
      assert es[i].0 == key;
    }
  }

  /** The serialised document names its id under `_id`, first. */
  lemma SerializedIdFirst(d: CouchDbDocument, order: seq<string>)
    requires d.data.JObject? ==> IsKeyOrder(order, d.data.fields)
    requires SerializeDocument(d, order).Ok?
    ensures SerializeDocument(d, order).value[0] == ("_id", JString(d.id))
  {
  }

  /** `_rev` is written exactly when the document has a revision, right after `_id`. */
  lemma SerializedRevIffSome(d: CouchDbDocument, order: seq<string>)
    requires d.data.JObject? ==> IsKeyOrder(order, d.data.fields) && "_rev" !in d.data.fields
    requires SerializeDocument(d, order).Ok?
    ensures (exists i :: 0 <= i < |SerializeDocument(d, order).value| && SerializeDocument(d, order).value[i].0 == "_rev")
        <==> d.rev.Some?
    ensures d.rev.Some? ==> SerializeDocument(d, order).value[1] == ("_rev", JString(d.rev.value))
  {
    var es := SerializeDocument(d, order).value;
    if d.rev.Some? {
      assert es[1].0 == "_rev";
    } else {
      forall i | 0 <= i < |es| ensures es[i].0 != "_rev" {
        if i > 0 {
          assert es[i].0 == order[i - 1];
        }
      }
    }
  }

  /** Every field of the data object is written at the top level, beside `_id` and `_rev`. */
  lemma SerializedDataFlattened(d: CouchDbDocument, order: seq<string>, key: string)
    requires d.data.JObject? && IsKeyOrder(order, d.data.fields) && key in d.data.fields
    ensures SerializeDocument(d, order).Ok?
    ensures exists i :: (|DocumentHeader(d)| <= i < |SerializeDocument(d, order).value|
      && SerializeDocument(d, order).value[i] == (key, d.data.fields[key]))
  {
    var j :| 0 <= j < |order| && order[j] == key;
    assert SerializeDocument(d, order).value[|DocumentHeader(d)| + j] == (key, d.data.fields[key]);
  }
  // ---------------------------------------------------------------------------------
  // JSON string literals, as `serde_json` writes them

  function HexDigit(d: nat): char
    requires d < 16
  {
    if d < 10 then ('0' as int + d) as char else ('a' as int + d - 10) as char
  }

  /**
   * The escaped form of one character: the two-character escapes for quote, backslash and
   * the five named controls, `\u00XX` (lower-case hex) for the other controls, and the
   * character itself otherwise.
   */
  function EscapeChar(c: char): (r: string)
    ensures |r| > 0
  {
    if c == '"' then "\\\""
    else if c == '\\' then "\\\\"
    else if c == '\n' then "\\n"
    else if c == '\r' then "\\r"
    else if c == '\t' then "\\t"
    else if c == '\U{8}' then "\\b"
    else if c == '\U{C}' then "\\f"
    else if c < ' ' then "\\u00" + [HexDigit(c as int / 16), HexDigit(c as int % 16)]
    else [c]
  }

  function EscapeString(s: string): (r: string)
    ensures |r| >= |s|
    ensures r == [] <==> s == []
    decreases |s|
  {
    if s == [] then [] else EscapeChar(s[0]) + EscapeString(s[1..])
  }

  /** A string as a JSON string literal. */
  function JsonQuote(s: string): (r: string)
    ensures |r| >= 2 && r[0] == '"' && r[|r| - 1] == '"'
  {
    "\"" + EscapeString(s) + "\""
  }

  function HexValue(c: char): Option<nat> {
    if '0' <= c <= '9' then Some(c as int - '0' as int)
    else if 'a' <= c <= 'f' then Some(c as int - 'a' as int + 10)
    else if 'A' <= c <= 'F' then Some(c as int - 'A' as int + 10)
    else None
  }

  /** The character a two-character escape stands for. */
  function ShortEscape(c: char): Option<char> {
    if c == '"' then Some('"')
    else if c == '\\' then Some('\\')
    else if c == '/' then Some('/')
    else if c == 'n' then Some('\n')
    else if c == 'r' then Some('\r')
    else if c == 't' then Some('\t')
    else if c == 'b' then Some('\U{8}')
    else if c == 'f' then Some('\U{C}')
    else None
  }

  /**
   * Reads the inside of a JSON string literal (escapes limited to the basic plane, no
   * surrogate pairs): an unescaped quote or control character is malformed.
   */
  function UnescapeString(s: string): Option<string>
    decreases |s|
  {
    if s == [] then Some([])
    else if s[0] == '\\' then
      if |s| >= 2 && ShortEscape(s[1]).Some? then
        match UnescapeString(s[2..])
        case Some(rest) => Some([ShortEscape(s[1]).value] + rest)
        case None => None
      else if |s| >= 6 && s[1] == 'u' && HexValue(s[2]).Some? && HexValue(s[3]).Some?
              && HexValue(s[4]).Some? && HexValue(s[5]).Some? then
        var code := ((HexValue(s[2]).value * 16 + HexValue(s[3]).value) * 16 + HexValue(s[4]).value) * 16 + HexValue(s[5]).value;
        if 0xD800 <= code < 0xE000 then None
        else
          match UnescapeString(s[6..])
          case Some(rest) => Some([code as char] + rest)
          case None => None
      else None
    else if s[0] == '"' || s[0] < ' ' then None
    else
      match UnescapeString(s[1..])
      case Some(rest) => Some([s[0]] + rest)
      case None => None
  }

  lemma UnescapeEscapedChar(c: char, rest: string)
    ensures UnescapeString(EscapeChar(c) + rest) ==
      match UnescapeString(rest) case Some(r) => Some([c] + r) case None => None
  {
    var e := EscapeChar(c);
    if c < ' ' && c !in {'\n', '\r', '\t', '\U{8}', '\U{C}'} {
      var hi := c as int / 16;
      var lo := c as int % 16;
      assert (e + rest)[6..] == rest;
      assert HexValue(HexDigit(hi)) == Some(hi);
      assert HexValue(HexDigit(lo)) == Some(lo);
      assert HexValue('0') == Some(0);
      assert (e + rest)[1] == 'u' && (e + rest)[2] == '0' && (e + rest)[3] == '0';
    } else if |e| == 2 {
      assert (e + rest)[2..] == rest;
    } else {
      assert (e + rest)[1..] == rest;
    }
  }

  /** Reading back an escaped string gives the string. */
  lemma {:induction false} UnescapeEscape(s: string)
    ensures UnescapeString(EscapeString(s)) == Some(s)
    decreases |s|
  {
    if s != [] {
      UnescapeEscape(s[1..]);
      UnescapeEscapedChar(s[0], EscapeString(s[1..]));
      assert [s[0]] + s[1..] == s;
    }
  }
}
