/**
 * Data URLs (section 3 of RFC 2397) as the front end builds and takes apart:
 * App.tsx builds `data:<mime>;base64,<payload>` for a thumbnail, and the input
 * bar recovers the payload of a FileReader result with `split(',')[1]`.
 */
module DataUrls {
  import opened Wrappers

  /** The separator between the media type and the payload of a data URL. */
  const Comma: char := ','

  /** `data:<mime>;base64,<payload>`, the string App.tsx builds for a thumbnail. */
  function DataUrl(mime: string, payload: string): (u: string)
    ensures |u| == 13 + |mime| + |payload|
    ensures u[..5] == "data:" && u[5..5 + |mime|] == mime
    ensures u[5 + |mime|..13 + |mime|] == ";base64,"
    ensures u[13 + |mime|..] == payload
  {
    "data:" + mime + ";base64" + [Comma] + payload
  }

  /** JavaScript's `s.split(sep)` for a one-character separator. */
  function Split(s: string, sep: char): (parts: seq<string>)
    ensures |parts| >= 1
    ensures |parts| == 1 <==> sep !in s
    ensures forall i :: 0 <= i < |parts| ==> sep !in parts[i]
  {
    if s == [] then [[]]
    else if s[0] == sep then [[]] + Split(s[1..], sep)
    else
      var rest := Split(s[1..], sep);
      [[s[0]] + rest[0]] + rest[1..]
  }

  /** JavaScript's `parts.join(sep)`, the inverse of `Split`. */
  function Join(parts: seq<string>, sep: char): string
  {
    if |parts| == 0 then []
    else if |parts| == 1 then parts[0]
    else parts[0] + [sep] + Join(parts[1..], sep)
  }

  /** `s.split(sep)[i]`, which is `undefined` past the last field. */
  function Field(s: string, sep: char, i: nat): (f: Option<string>)
    ensures f.Some? <==> i < |Split(s, sep)|
    ensures f.Some? ==> sep !in f.value
  {
    var parts := Split(s, sep);
    if i < |parts| then Some(parts[i]) else None
  }

  /** The payload a data URL carries, taken as the input bar does: `result.split(',')[1]`. */
  function Base64Payload(dataUrl: string): (p: Option<string>)
    ensures p.Some? <==> Comma in dataUrl
    ensures p.Some? ==> Comma !in p.value
  {
    Field(dataUrl, Comma, 1)
  }

  /** A character of the base64 alphabet of section 4 of RFC 4648, pad included. */
  predicate IsBase64Char(c: char)
  {
    ('A' <= c <= 'Z') || ('a' <= c <= 'z') || ('0' <= c <= '9') || c == '+' || c == '/' || c == '='
  }

  /** A string made only of base64 characters. */
  predicate IsBase64Text(s: string)
  {
    forall i :: 0 <= i < |s| ==> IsBase64Char(s[i])
  }

  /** A field without the separator splits into just itself. */
  lemma {:induction false} SplitWithoutSep(s: string, sep: char)
    requires sep !in s
    ensures Split(s, sep) == [s]
  {
    if s != [] {
      SplitWithoutSep(s[1..], sep);
      assert s == [s[0]] + s[1..];
    }
  }

  /** Splitting at the first separator peels off the text before it. */
  lemma {:induction false} SplitAtFirstSep(x: string, sep: char, y: string)
    requires sep !in x
    ensures Split(x + [sep] + y, sep) == [x] + Split(y, sep)
  {
    var s := x + [sep] + y;
    if x == [] {
      assert s[1..] == y;
    } else {
      assert s[1..] == x[1..] + [sep] + y;
      SplitAtFirstSep(x[1..], sep, y);
      assert [x[0]] + x[1..] == x;
    }
  }

  /** Joining a field in front of at least one more puts a separator between them. */
  lemma JoinCons(p: string, rest: seq<string>, sep: char)
    requires |rest| >= 1
    ensures Join([p] + rest, sep) == p + [sep] + Join(rest, sep)
  {
    assert ([p] + rest)[1..] == rest;
  }

  /** Growing the first field by one character grows the join by that character in front. */
  lemma JoinExtendFirst(c: char, rest: seq<string>, sep: char)
    requires |rest| >= 1
    ensures Join([[c] + rest[0]] + rest[1..], sep) == [c] + Join(rest, sep)
  {
    if |rest| > 1 {
      JoinCons([c] + rest[0], rest[1..], sep);
      assert rest == [rest[0]] + rest[1..];
      JoinCons(rest[0], rest[1..], sep);
    }
  }

  /** Join undoes Split: the fields put back together give the original string. */
  lemma {:induction false} JoinSplit(s: string, sep: char)
    ensures Join(Split(s, sep), sep) == s
  {
    if s != [] {
      JoinSplit(s[1..], sep);
      var rest := Split(s[1..], sep);
      if s[0] == sep {
        assert Split(s, sep) == [[]] + rest;
        JoinCons([], rest, sep);
      } else {
        assert Split(s, sep) == [[s[0]] + rest[0]] + rest[1..];
        JoinExtendFirst(s[0], rest, sep);
      }
      assert s == [s[0]] + s[1..];
    }
  }

  /** Split undoes Join for fields that do not contain the separator. */
  lemma {:induction false} SplitJoin(parts: seq<string>, sep: char)
    requires |parts| >= 1
    requires forall i :: 0 <= i < |parts| ==> sep !in parts[i]
    ensures Split(Join(parts, sep), sep) == parts
  {
    if |parts| == 1 {
      SplitWithoutSep(parts[0], sep);
    } else {
      SplitJoin(parts[1..], sep);
      SplitAtFirstSep(parts[0], sep, Join(parts[1..], sep));
      assert parts == [parts[0]] + parts[1..];
    }
  }

  /**
   * Taking the payload out of a data URL the way the input bar does gives back
   * the payload App.tsx put in, as long as the media type has no comma and the
   * payload is base64 text.
   */
  lemma {:induction false} Base64PayloadRoundTrip(mime: string, payload: string)
    requires Comma !in mime
    requires IsBase64Text(payload)
    ensures Base64Payload(DataUrl(mime, payload)) == Some(payload)
  {
    assert Comma !in payload by {
      forall i | 0 <= i < |payload| ensures payload[i] != Comma {
        assert IsBase64Char(payload[i]);
      }
    }
    var head := "data:" + mime + ";base64";
    assert Comma !in head by {
      assert head == "data:" + mime + ";base64";
      forall i | 0 <= i < |head| ensures head[i] != Comma {
        if i < 5 {
          assert head[i] == "data:"[i];
        } else if i < 5 + |mime| {
          assert head[i] == mime[i - 5];
        } else {
          assert head[i] == ";base64"[i - 5 - |mime|];
        }
      }
    }
    assert DataUrl(mime, payload) == Join([head, payload], Comma);
    SplitJoin([head, payload], Comma);
  }
}
