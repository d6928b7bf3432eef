/**
 * The JSON text the app writes to and reads from the secure store:
 * `JSON.stringify` and `JSON.parse` restricted to flat objects whose
 * values are strings, which is what a session record is in this model.
 */
module Json {
  import opened Wrappers

  /** A JSON object as an ordered list of members (JavaScript keeps insertion order). */
  type Object = seq<(string, string)>

  /** Property access `o[key]`: the first member with that key, if any. */
  function Get(o: Object, key: string): (r: Option<string>)
    ensures r.Some? <==> exists i :: 0 <= i < |o| && o[i].0 == key
    ensures r.Some? ==> exists i :: 0 <= i < |o| && o[i] == (key, r.value)
  {
    if o == [] then None
    else if o[0].0 == key then Some(o[0].1)
    else Get(o[1..], key)
  }

  /** A member whose key no earlier member has is what property access finds. */
  lemma {:induction false} GetAt(o: Object, i: int)
    requires 0 <= i < |o|
    requires forall j :: 0 <= j < i ==> o[j].0 != o[i].0
    ensures Get(o, o[i].0) == Some(o[i].1)
  {
    if i > 0 {
      GetAt(o[1..], i - 1);
    }
  }

  /** The text JavaScript's `+` and `String()` give a property that may be `undefined`. */
  function Text(v: Option<string>): string {
    v.GetOr("undefined")
  }

  /** The characters of a string literal's body: `"` and `\` are escaped. */
  function Escape(s: string): string {
    if s == [] then []
    else (if s[0] == '"' || s[0] == '\\' then ['\\', s[0]] else [s[0]]) + Escape(s[1..])
  }

  function Quote(s: string): string {
    "\"" + Escape(s) + "\""
  }

  function Member(m: (string, string)): string {
    Quote(m.0) + ":" + Quote(m.1)
  }

  /** The members after the first, each preceded by a comma. */
  function MoreMembers(o: Object): string {
    if o == [] then "" else "," + Member(o[0]) + MoreMembers(o[1..])
  }

  /** `JSON.stringify(o)` */
  function Stringify(o: Object): string {
    if o == [] then "{}" else "{" + Member(o[0]) + MoreMembers(o[1..]) + "}"
  }

  /**
   * Reads a string literal's body up to its unescaped closing quote;
   * returns the decoded string and the text after the quote.
   */
  function ParseChars(s: string): (r: Option<(string, string)>)
    ensures r.Some? ==> |r.value.1| < |s|
    decreases |s|
  {
    if s == [] then None
    else if s[0] == '"' then Some(([], s[1..]))
    else if s[0] == '\\' then
      if |s| >= 2 && (s[1] == '"' || s[1] == '\\') then
        match ParseChars(s[2..])
        case None => None
        case Some((c, rest)) => Some(([s[1]] + c, rest))
      else None
    else
      match ParseChars(s[1..])
      case None => None
      case Some((c, rest)) => Some(([s[0]] + c, rest))
  }

  function ParseString(s: string): (r: Option<(string, string)>)
    ensures r.Some? ==> |r.value.1| < |s|
  {
    if s != [] && s[0] == '"' then ParseChars(s[1..]) else None
  }

  function ParseMember(s: string): (r: Option<((string, string), string)>)
    ensures r.Some? ==> |r.value.1| < |s|
  {
    match ParseString(s)
    case None => None
    case Some((k, rest)) =>
      if rest != [] && rest[0] == ':' then
        match ParseString(rest[1..])
        case None => None
        case Some((v, rest')) => Some(((k, v), rest'))
      else None
  }

  /** Reads `,member,member...}` and returns the members and the text after `}`. */
  function ParseMoreMembers(s: string): (r: Option<(Object, string)>)
    decreases |s|
  {
    if s == [] then None
    else if s[0] == '}' then Some(([], s[1..]))
    else if s[0] == ',' then
      match ParseMember(s[1..])
      case None => None
      case Some((m, rest)) =>
        match ParseMoreMembers(rest)
        case None => None
        case Some((ms, rest')) => Some(([m] + ms, rest'))
    else None
  }

  /** `JSON.parse(s)`; `None` where the source's call would throw. */
  function Parse(s: string): Option<Object> {
    if |s| >= 2 && s[0] == '{' && s[1] == '}' then
      if |s| == 2 then Some([]) else None
    else if s != [] && s[0] == '{' then
      match ParseMember(s[1..])
      case None => None
      case Some((m, rest)) =>
        match ParseMoreMembers(rest)
        case Some((ms, rest')) => if rest' == [] then Some([m] + ms) else None
        case None => None
    else None
  }

  lemma {:induction false} ParseCharsEscape(x: string, rest: string)
    ensures ParseChars(Escape(x) + "\"" + rest) == Some((x, rest))
  {
    var s := Escape(x) + "\"" + rest;
    if x == [] {
      assert s == "\"" + rest;
      assert s[0] == '"' && s[1..] == rest;
    } else {
      var tail := Escape(x[1..]) + "\"" + rest;
      ParseCharsEscape(x[1..], rest);
      if x[0] == '"' || x[0] == '\\' {
        assert Escape(x) == ['\\', x[0]] + Escape(x[1..]);
        assert s == ['\\', x[0]] + tail;
        assert s[0] == '\\' && s[1] == x[0] && s[2..] == tail;
      } else {
        assert Escape(x) == [x[0]] + Escape(x[1..]);
        assert s == [x[0]] + tail;
        assert s[0] == x[0] && s[1..] == tail;
      }
      assert [x[0]] + x[1..] == x;
    }
  }

  lemma ParseStringQuote(x: string, rest: string)
    ensures ParseString(Quote(x) + rest) == Some((x, rest))
  {
    var s := Quote(x) + rest;
    assert s[1..] == Escape(x) + "\"" + rest;
    ParseCharsEscape(x, rest);
  }

  lemma ParseMemberRoundTrip(m: (string, string), rest: string)
    ensures ParseMember(Member(m) + rest) == Some((m, rest))
  {
    var s := Member(m) + rest;
    assert s == Quote(m.0) + (":" + Quote(m.1) + rest);
    ParseStringQuote(m.0, ":" + Quote(m.1) + rest);
    assert (":" + Quote(m.1) + rest)[1..] == Quote(m.1) + rest;
    ParseStringQuote(m.1, rest);
  }

  lemma {:induction false} ParseMoreMembersRoundTrip(o: Object, rest: string)
    ensures ParseMoreMembers(MoreMembers(o) + "}" + rest) == Some((o, rest))
  {
    var s := MoreMembers(o) + "}" + rest;
    if o == [] {
      assert s == "}" + rest;
      assert s[0] == '}' && s[1..] == rest;
    } else {
      var m := Member(o[0]);
      var tail := MoreMembers(o[1..]) + "}" + rest;
      assert MoreMembers(o) == "," + m + MoreMembers(o[1..]);
      assert s == "," + (m + tail);
      assert s[0] == ',' && s[1..] == m + tail;
      ParseMemberRoundTrip(o[0], tail);
      ParseMoreMembersRoundTrip(o[1..], rest);
      var pm := ParseMember(s[1..]);
      assert pm == Some((o[0], tail));
      var pr := ParseMoreMembers(tail);
      assert pr == Some((o[1..], rest));
      assert [o[0]] + o[1..] == o;
    }
  }

  /** What the app stores it reads back unchanged: `JSON.parse(JSON.stringify(o))` is `o`. */
  lemma ParseStringify(o: Object)
    ensures Parse(Stringify(o)) == Some(o)
  {
    var s := Stringify(o);
    if o == [] {
      assert s == "{}";
    } else {
      var m := Member(o[0]);
      var tail := MoreMembers(o[1..]) + "}";
      assert s == "{" + (m + tail);
      assert s[1..] == m + tail;
      assert m[0] == '"';
      assert s[0] == '{' && s[1] == '"';
      ParseMemberRoundTrip(o[0], tail);
      assert ParseMember(s[1..]) == Some((o[0], tail));
      ParseMoreMembersRoundTrip(o[1..], "");
      assert tail == MoreMembers(o[1..]) + "}" + "";
      assert ParseMoreMembers(tail) == Some((o[1..], ""));
      assert [o[0]] + o[1..] == o;
    }
  }

  /** No stringified object is the empty string, so the store's `if (user)` always takes it. */
  lemma StringifyNonEmpty(o: Object)
    ensures |Stringify(o)| >= 2 && Stringify(o)[0] == '{'
  {
  }
}
