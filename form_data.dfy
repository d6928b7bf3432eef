/**
 * The multipart request bodies the screens build: `new FormData()` followed
 * by `append` calls, the `Object.keys(input).forEach(append)` loop, object
 * spread, and the file-name extraction `uri.split('/').pop()`.
 */
module FormData {
  import opened Wrappers
  import Json

  /** A form part: a text field, or a picked photo with its uri, file name and MIME type. */
  datatype Part = Text(value: string) | Photo(uri: string, name: string, mime: string)

  type Entry = (string, Part)

  /** The parts the `forEach` loop appends for a form-values object, in key order. */
  function TextEntries(o: Json.Object): seq<Entry> {
    if o == [] then [] else [(o[0].0, Text(o[0].1))] + TextEntries(o[1..])
  }

  lemma {:induction false} TextEntriesAt(o: Json.Object, i: int)
    requires 0 <= i < |o|
    ensures |TextEntries(o)| == |o|
    ensures TextEntries(o)[i] == (o[i].0, Text(o[i].1))
  {
    if i > 0 {
      TextEntriesAt(o[1..], i - 1);
    } else if |o| > 1 {
      TextEntriesAt(o[1..], 0);
    }
  }

  lemma {:induction false} TextEntriesLength(o: Json.Object)
    ensures |TextEntries(o)| == |o|
  {
    if o != [] {
      TextEntriesLength(o[1..]);
    }
  }

  lemma {:induction false} TextEntriesSnoc(o: Json.Object, m: (string, string))
    ensures TextEntries(o + [m]) == TextEntries(o) + [(m.0, Text(m.1))]
  {
    if o != [] {
      assert (o + [m])[1..] == o[1..] + [m];
      TextEntriesSnoc(o[1..], m);
    } else {
      assert o + [m] == [m];
    }
  }

  /**
   * `Object.keys(input).forEach(k => formData.append(k, input[k]))` on a form
   * already holding `fd`. (The keys of a JavaScript object are distinct, so
   * `input[k]` is the member's own value.)
   */
  method AppendFields(fd: seq<Entry>, input: Json.Object) returns (r: seq<Entry>)
    ensures r == fd + TextEntries(input)
  {
    r := fd;
    var i := 0;
    while i < |input|
      invariant 0 <= i <= |input|
      invariant r == fd + TextEntries(input[..i])
    {
      TextEntriesSnoc(input[..i], input[i]);
      assert input[..i + 1] == input[..i] + [input[i]];
      r := r + [(input[i].0, Text(input[i].1))];
      i := i + 1;
    }
    assert input[..i] == input;
  }

  /** `formData.append(key, user[key])`: FormData turns an absent property into the text "undefined". */
  function UserField(user: Json.Object, key: string): (r: string)
    ensures Json.Get(user, key).Some? ==> r == Json.Get(user, key).value
    ensures Json.Get(user, key).None? ==> r == "undefined"
  {
    Json.Text(Json.Get(user, key))
  }

  /** The two session fields every authenticated request ends with. */
  function SessionEntries(user: Json.Object): seq<Entry> {
    [("userId", Text(UserField(user, "userId"))), ("role", Text(UserField(user, "role")))]
  }

  /** The keys of an entry list, in order. */
  function Keys(es: seq<Entry>): seq<string> {
    if es == [] then [] else [es[0].0] + Keys(es[1..])
  }

  lemma {:induction false} KeysAppend(a: seq<Entry>, b: seq<Entry>)
    ensures Keys(a + b) == Keys(a) + Keys(b)
  {
    if a != [] {
      assert (a + b)[1..] == a[1..] + b;
      KeysAppend(a[1..], b);
    } else {
      assert a + b == b;
    }
  }

  /** The appended keys are the object's keys, in the object's order. */
  lemma {:induction false} KeysTextEntries(o: Json.Object)
    ensures |Keys(TextEntries(o))| == |o|
    ensures forall i :: 0 <= i < |o| ==> Keys(TextEntries(o))[i] == o[i].0
  {
    if o != [] {
      KeysTextEntries(o[1..]);
      assert TextEntries(o) == [(o[0].0, Text(o[0].1))] + TextEntries(o[1..]);
      KeysAppend([(o[0].0, Text(o[0].1))], TextEntries(o[1..]));
    }
  }

  // ---------------------------------------------------------------
  // Object spread `{...a, ...b}`

  /** Whether `o` has a member with key `k`. */
  predicate HasKey(o: Json.Object, k: string) {
    Json.Get(o, k).Some?
  }

  /** The members of `a` in order, each taking `b`'s value when `b` has the key. */
  function Overwrite(a: Json.Object, b: Json.Object): Json.Object {
    if a == [] then [] else [(a[0].0, Json.Get(b, a[0].0).GetOr(a[0].1))] + Overwrite(a[1..], b)
  }

  /** The members of `b` whose keys `a` does not have, in `b`'s order. */
  function NewMembers(b: Json.Object, a: Json.Object): Json.Object {
    if b == [] then []
    else (if HasKey(a, b[0].0) then [] else [b[0]]) + NewMembers(b[1..], a)
  }

  /** `{...a, ...b}`: a key keeps its first position, the later object's value wins. */
  function Spread(a: Json.Object, b: Json.Object): Json.Object {
    Overwrite(a, b) + NewMembers(b, a)
  }

  lemma GetAppend(x: Json.Object, y: Json.Object, k: string)
    ensures Json.Get(x + y, k) == if HasKey(x, k) then Json.Get(x, k) else Json.Get(y, k)
  {
    if x != [] {
      assert (x + y)[1..] == x[1..] + y;
      GetAppend(x[1..], y, k);
    } else {
      assert x + y == y;
    }
  }

  lemma {:induction false} GetOverwrite(a: Json.Object, b: Json.Object, k: string)
    ensures HasKey(Overwrite(a, b), k) == HasKey(a, k)
    ensures HasKey(a, k) ==> Json.Get(Overwrite(a, b), k) == Some(Json.Get(b, k).GetOr(Json.Get(a, k).value))
  {
    if a != [] {
      GetOverwrite(a[1..], b, k);
    }
  }

  lemma {:induction false} GetNewMembers(b: Json.Object, a: Json.Object, k: string)
    requires !HasKey(a, k)
    ensures Json.Get(NewMembers(b, a), k) == Json.Get(b, k)
  {
    if b != [] {
      GetNewMembers(b[1..], a, k);
      GetAppend(if HasKey(a, b[0].0) then [] else [b[0]], NewMembers(b[1..], a), k);
    }
  }

  /** After `{...a, ...b}`, a key of `b` reads `b`'s value; any other key reads `a`'s. */
  lemma SpreadGet(a: Json.Object, b: Json.Object, k: string)
    ensures Json.Get(Spread(a, b), k) == if HasKey(b, k) then Json.Get(b, k) else Json.Get(a, k)
  {
    GetAppend(Overwrite(a, b), NewMembers(b, a), k);
    GetOverwrite(a, b, k);
    if !HasKey(a, k) {
      GetNewMembers(b, a, k);
    }
  }

  // ---------------------------------------------------------------
  // `s.split(sep).pop()`

  /** `s.split(sep)` for a one-character separator: never empty. */
  function Split(s: string, sep: char): (r: seq<string>)
    ensures |r| >= 1
  {
    if s == [] then [[]]
    else
      var rest := Split(s[1..], sep);
      if s[0] == sep then [[]] + rest else [[s[0]] + rest[0]] + rest[1..]
  }

  /** `s.split(sep).pop()`: the last piece. */
  function LastPiece(s: string, sep: char): string {
    var parts := Split(s, sep);
    parts[|parts| - 1]
  }

  /** The text after the last separator, as a predicate on `r`. */
  predicate IsTextAfterLastSeparator(r: string, s: string, sep: char) {
    && |r| <= |s|
    && s[|s| - |r|..] == r
    && sep !in r
    && (|r| < |s| ==> s[|s| - |r| - 1] == sep)
  }

  /**
   * The last piece is the text after the last separator: a suffix of `s`
   * holding no separator, preceded in `s` by a separator unless it is all of `s`.
   */
  lemma {:induction false} LastPieceIsTextAfterLastSeparator(s: string, sep: char)
    ensures IsTextAfterLastSeparator(LastPiece(s, sep), s, sep)
  {
    if s != [] {
      var s' := s[1..];
      LastPieceIsTextAfterLastSeparator(s', sep);
      LastPieceStep(s, sep);
      var t := LastPiece(s', sep);
      if s[0] != sep && |Split(s', sep)| == 1 {
        SinglePieceIsWhole(s', sep);
        assert sep !in s';
      } else if |t| == |s'| {
        assert t == s';
        NoSeparatorSinglePiece(s', sep);
      } else {
        TailSuffix(s, t);
        assert s'[|s'| - |t| - 1] == sep;
      }
    }
  }

  /** One character more in front: the last piece grows to the whole text, or stays as it was. */
  lemma LastPieceStep(s: string, sep: char)
    requires s != []
    ensures if s[0] != sep && |Split(s[1..], sep)| == 1 then LastPiece(s, sep) == s
            else LastPiece(s, sep) == LastPiece(s[1..], sep)
  {
    if s[0] != sep && |Split(s[1..], sep)| == 1 {
      SinglePieceIsWhole(s[1..], sep);
      assert [s[0]] + s[1..] == s;
    }
  }

  /** A suffix of the tail is a suffix of the whole text. */
  lemma TailSuffix(s: string, t: string)
    requires s != [] && |t| < |s| && s[1..][|s| - 1 - |t|..] == t
    ensures s[|s| - |t|..] == t
  {
    assert s[1..][|s| - 1 - |t|..] == s[|s| - |t|..];
  }

  /** A split yields one piece exactly when it is the whole string. */
  lemma {:induction false} SinglePieceIsWhole(s: string, sep: char)
    requires |Split(s, sep)| == 1
    ensures Split(s, sep)[0] == s
  {
    if s != [] {
      var rest := Split(s[1..], sep);
      assert s[0] != sep;
      SinglePieceIsWhole(s[1..], sep);
      assert [s[0]] + s[1..] == s;
    }
  }

  lemma {:induction false} NoSeparatorSinglePiece(s: string, sep: char)
    requires sep !in s
    ensures |Split(s, sep)| == 1
  {
    if s != [] {
      assert s[0] != sep;
      NoSeparatorSinglePiece(s[1..], sep);
    }
  }

  /** A suffix of a text lacks every character the text lacks. */
  lemma SuffixLacks(a: string, b: string, c: char)
    requires |a| <= |b| && b[|b| - |a|..] == a && c !in b
    ensures c !in a
  {
  }

  /** At most one text can be what follows the last separator. */
  lemma TextAfterLastSeparatorUnique(r1: string, r2: string, s: string, sep: char)
    requires IsTextAfterLastSeparator(r1, s, sep) && IsTextAfterLastSeparator(r2, s, sep)
    ensures r1 == r2
  {
    assert |r1| == |r2|;
  }

  /** The uploaded photo part: name after the last '/', type after the name's last '.'. */
  function PhotoPart(uri: string): (p: Part)
    ensures p.Photo? && p.uri == uri
  {
    var fileName := LastPiece(uri, '/');
    Photo(uri, fileName, "image/" + LastPiece(fileName, '.'))
  }

  /**
   * The photo part's name is exactly the text after the uri's last '/', and
   * its type is `image/` followed by exactly the text after the name's last
   * '.', which holds no '/'.
   */
  lemma PhotoPartMeans(uri: string)
    ensures var p := PhotoPart(uri);
      && IsTextAfterLastSeparator(p.name, uri, '/')
      && |p.mime| >= 6 && p.mime[..6] == "image/" && IsTextAfterLastSeparator(p.mime[6..], p.name, '.')
      && '/' !in p.mime[6..]
  {
    var fileName := LastPiece(uri, '/');
    var fileType := LastPiece(fileName, '.');
    LastPieceIsTextAfterLastSeparator(uri, '/');
    LastPieceIsTextAfterLastSeparator(fileName, '.');
    assert ("image/" + fileType)[6..] == fileType;
    SuffixLacks(fileType, fileName, '/');
  }
}
