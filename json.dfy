/**
 * JSON as the service sees it: the decoded request body handed to the
 * validator, and the text encoding of a suggestion list that the store keeps
 * in its `suggestions` column (written with `json.dumps`, read back with
 * `json.loads`).
 */
module Json {
  import opened Wrappers

  /** A decoded JSON value. Numbers are finite reals. */
  datatype Value =
    | Null
    | Bool(b: bool)
    | Num(n: real)
    | Str(s: string)
    | Arr(items: seq<Value>)
    | Obj(members: map<string, Value>)

  /** The body of a JSON string literal: `"` and `\` are escaped with a backslash. */
  function Escape(s: string): string
  {
    if s == [] then []
    else (if s[0] == '"' || s[0] == '\\' then ['\\', s[0]] else [s[0]]) + Escape(s[1..])
  }

  function Quoted(s: string): string
  {
    "\"" + Escape(s) + "\""
  }

  /** The string literals of `ss`, separated by ", " as `json.dumps` separates them. */
  function Items(ss: seq<string>): string
  {
    if ss == [] then []
    else if |ss| == 1 then Quoted(ss[0])
    else Quoted(ss[0]) + ", " + Items(ss[1..])
  }

  /** The text of a list of strings, in the layout `json.dumps` gives it. */
  function EncodeStrings(ss: seq<string>): (r: string)
    ensures |r| >= 2 && r[0] == '[' && r[|r| - 1] == ']'
    ensures r == "[]" <==> ss == []
  {
    assert ss != [] ==> Items(ss)[0] == '"';
    "[" + Items(ss) + "]"
  }

  /**
   * Reads the body of a string literal up to its closing quote; returns the
   * decoded string and the text after the quote.
   */
  function ReadBody(t: string): (r: Option<(string, string)>)
    ensures r.Some? ==> |r.value.1| < |t|
    decreases |t|
  {
    if t == [] then None
    else if t[0] == '"' then Some(([], t[1..]))
    else if t[0] == '\\' then
      if |t| >= 2 && (t[1] == '"' || t[1] == '\\') then
        match ReadBody(t[2..])
        case None => None
        case Some(p) => Some(([t[1]] + p.0, p.1))
      else None
    else
      match ReadBody(t[1..])
      case None => None
      case Some(p) => Some(([t[0]] + p.0, p.1))
  }

  /** Reads one or more string literals separated by ", " and closed by "]". */
  function ReadItems(t: string): (r: Option<seq<string>>)
    ensures r.Some? ==> |r.value| > 0
    decreases |t|
  {
    if t == [] || t[0] != '"' then None
    else
      match ReadBody(t[1..])
      case None => None
      case Some(p) =>
        if p.1 == "]" then Some([p.0])
        else if |p.1| >= 2 && p.1[..2] == ", " then
          match ReadItems(p.1[2..])
          case None => None
          case Some(rest) => Some([p.0] + rest)
        else None
  }

  /** Reads back a list of strings; `None` stands for a `json.loads` failure. */
  function DecodeStrings(t: string): (r: Option<seq<string>>)
    ensures r.Some? ==> |t| >= 2 && t[0] == '['
    ensures r == Some([]) <==> t == "[]"
  {
    if t == "[]" then Some([])
    else if |t| > 0 && t[0] == '[' then ReadItems(t[1..])
    else None
  }

  lemma {:induction false} ReadBodyOfEscape(s: string, rest: string)
    ensures ReadBody(Escape(s) + "\"" + rest) == Some((s, rest))
  {
    var t := Escape(s) + "\"" + rest;
    if s == [] {
      assert t == "\"" + rest;
    } else {
      ReadBodyOfEscape(s[1..], rest);
      if s[0] == '"' || s[0] == '\\' {
        assert t == ['\\', s[0]] + (Escape(s[1..]) + "\"" + rest);
        assert t[2..] == Escape(s[1..]) + "\"" + rest;
      } else {
        assert t == [s[0]] + (Escape(s[1..]) + "\"" + rest);
        assert t[1..] == Escape(s[1..]) + "\"" + rest;
      }
      assert [s[0]] + s[1..] == s;
    }
  }

  /** One literal, then whatever follows it. */
  lemma ReadItemsStep(x: string, tail: string)
    ensures ReadItems("\"" + Escape(x) + "\"" + tail) ==
      if tail == "]" then Some([x])
      else if |tail| >= 2 && tail[..2] == ", " then
        match ReadItems(tail[2..])
        case None => None
        case Some(rest) => Some([x] + rest)
      else None
  {
    var t := "\"" + Escape(x) + "\"" + tail;
    assert t[1..] == Escape(x) + "\"" + tail;
    ReadBodyOfEscape(x, tail);
  }

  lemma {:induction false} ReadItemsOfItems(ss: seq<string>)
    requires ss != []
    ensures ReadItems(Items(ss) + "]") == Some(ss)
  {
    if |ss| == 1 {
      ReadItemsOfOne(ss[0]);
      assert ss == [ss[0]];
    } else {
      ReadItemsOfItems(ss[1..]);
      ReadItemsOfFirst(ss[0], ss[1..]);
      assert [ss[0]] + ss[1..] == ss;
    }
  }

  lemma ReadItemsOfOne(x: string)
    ensures ReadItems(Items([x]) + "]") == Some([x])
  {
    assert Items([x]) + "]" == "\"" + Escape(x) + "\"" + "]";
    ReadItemsStep(x, "]");
  }

  lemma ReadItemsOfFirst(x: string, rest: seq<string>)
    requires rest != [] && ReadItems(Items(rest) + "]") == Some(rest)
    ensures ReadItems(Items([x] + rest) + "]") == Some([x] + rest)
  {
    var ss := [x] + rest;
    assert ss[0] == x && ss[1..] == rest;
    var tail := ", " + Items(rest) + "]";
    assert Items(ss) + "]" == "\"" + Escape(x) + "\"" + tail;
    ReadItemsStep(x, tail);
    assert tail[..2] == ", " && tail != "]";
    assert tail[2..] == Items(rest) + "]";
  }

  /** `json.loads(json.dumps(ss)) == ss` for every list of strings. */
  lemma DecodeEncode(ss: seq<string>)
    ensures DecodeStrings(EncodeStrings(ss)) == Some(ss)
  {
    var t := EncodeStrings(ss);
    if ss == [] {
      assert t == "[]";
    } else {
      assert |Items(ss)| > 0;
      assert t != "[]";
      assert t[1..] == Items(ss) + "]";
      ReadItemsOfItems(ss);
    }
  }

  /** Whatever text a list was stored as, reading it back gives that list. */
  lemma DecodeEncodeAny(t: string)
    ensures forall ss :: t == EncodeStrings(ss) ==> DecodeStrings(t) == Some(ss)
  {
    forall ss | t == EncodeStrings(ss) ensures DecodeStrings(t) == Some(ss) {
      DecodeEncode(ss);
    }
  }

  /** Distinct lists are stored as distinct texts. */
  lemma EncodeInjective(a: seq<string>, b: seq<string>)
    ensures EncodeStrings(a) == EncodeStrings(b) ==> a == b
  {
    DecodeEncode(a);
    DecodeEncode(b);
  }
}
