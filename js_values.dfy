/** JavaScript values and string operations the extension relies on. */
module JsValues {

  datatype Option<+T> = None | Some(value: T)

  /** A JavaScript value whose static type is `string`: a string, `null` or `undefined`. */
  datatype JsString = Str(s: string) | Null | Undefined {

    /** JavaScript truthiness: only a non-empty string is truthy. */
    predicate Truthy() {
      Str? && s != ""
    }

    /** What the value renders as inside a template literal `${...}`. */
    function Template(): string {
      match this
      case Str(s) => s
      case Null => "null"
      case Undefined => "undefined"
    }
  }

  /** The characters `String.prototype.trim` strips: white space and line terminators. */
  predicate IsJsWhitespace(c: char) {
    || c == '\t' || c == '\n' || c == '\U{000B}' || c == '\U{000C}' || c == '\r' || c == ' '
    || c == '\U{00A0}' || c == '\U{1680}' || ('\U{2000}' <= c <= '\U{200A}')
    || c == '\U{2028}' || c == '\U{2029}' || c == '\U{202F}' || c == '\U{205F}'
    || c == '\U{3000}' || c == '\U{FEFF}'
  }

  predicate AllWhitespace(s: string) {
    forall i :: 0 <= i < |s| ==> IsJsWhitespace(s[i])
  }

  /** Drops leading white space: the result is the suffix after a run of white space. */
  function TrimStart(s: string): (r: string)
    ensures |r| <= |s| && r == s[|s| - |r|..]
    ensures AllWhitespace(s[..|s| - |r|])
    ensures r == "" || !IsJsWhitespace(r[0])
  {
    if |s| > 0 && IsJsWhitespace(s[0]) then
      var r := TrimStart(s[1..]);
      assert s[1..][..|s| - 1 - |r|] == s[1..|s| - |r|];
      r
    else
      s
  }

  /** Drops trailing white space: the result is the prefix before a run of white space. */
  function TrimEnd(s: string): (r: string)
    ensures |r| <= |s| && r == s[..|r|]
    ensures AllWhitespace(s[|r|..])
    ensures r == "" || !IsJsWhitespace(r[|r| - 1])
  {
    if |s| > 0 && IsJsWhitespace(s[|s| - 1]) then
      var r := TrimEnd(s[..|s| - 1]);
      assert s[|r|..] == s[..|s| - 1][|r|..] + [s[|s| - 1]];
      r
    else
      s
  }

  /** White space on both sides of a concatenation is white space of the whole. */
  lemma AllWhitespaceAppend(a: string, b: string)
    ensures AllWhitespace(a + b) <==> AllWhitespace(a) && AllWhitespace(b)
  {
    if AllWhitespace(a + b) {
      forall i | 0 <= i < |a| ensures IsJsWhitespace(a[i]) {
        assert a[i] == (a + b)[i];
      }
      forall i | 0 <= i < |b| ensures IsJsWhitespace(b[i]) {
        assert b[i] == (a + b)[|a| + i];
      }
    }
    if AllWhitespace(a) && AllWhitespace(b) {
      forall i | 0 <= i < |a + b| ensures IsJsWhitespace((a + b)[i]) {
        if i >= |a| {
          assert (a + b)[i] == b[i - |a|];
        }
      }
    }
  }

  /** `String.prototype.trim`. */
  function Trim(s: string): (r: string)
    ensures r == "" <==> AllWhitespace(s)
    ensures r == "" || (!IsJsWhitespace(r[0]) && !IsJsWhitespace(r[|r| - 1]))
    ensures exists i, j :: 0 <= i <= j <= |s| && r == s[i..j] && AllWhitespace(s[..i]) && AllWhitespace(s[j..])
  {
    var t := TrimStart(s);
    var r := TrimEnd(t);
    TrimFacts(s, t, r);
    TrimSlice(s, t, r);
    r
  }

  /** A prefix `r` of a suffix `t` of `s`, with white space before `t` and after `r`, is a
      slice of `s` between two runs of white space. */
  lemma TrimSlice(s: string, t: string, r: string)
    requires |t| <= |s| && t == s[|s| - |t|..] && AllWhitespace(s[..|s| - |t|])
    requires |r| <= |t| && r == t[..|r|] && AllWhitespace(t[|r|..])
    ensures exists i, j :: 0 <= i <= j <= |s| && r == s[i..j] && AllWhitespace(s[..i]) && AllWhitespace(s[j..])
  {
    var i := |s| - |t|;
    var j := i + |r|;
    assert s[i..j] == t[..|r|];
    assert s[j..] == t[|r|..];
  }

  lemma TrimFacts(s: string, t: string, r: string)
    requires t == TrimStart(s) && r == TrimEnd(t)
    ensures r == "" <==> AllWhitespace(s)
    ensures r != "" ==> r[0] == t[0]
  {
    assert s == s[..|s| - |t|] + t;
    AllWhitespaceAppend(s[..|s| - |t|], t);
    if r == "" {
      assert t[|r|..] == t;
    }
    if AllWhitespace(s) {
      assert AllWhitespace(t);
    }
  }

  /** Trimming twice changes nothing more than trimming once. */
  lemma TrimIdempotent(s: string)
    ensures Trim(Trim(s)) == Trim(s)
  {
    var r := Trim(s);
    if r != "" {
      assert TrimStart(r) == r;
      assert TrimEnd(r) == r;
    }
  }

  /** `Array.prototype.join(sep)` on an array of strings. */
  function Join(parts: seq<string>, sep: string): string
  {
    if |parts| == 0 then ""
    else if |parts| == 1 then parts[0]
    else parts[0] + sep + Join(parts[1..], sep)
  }

  /** `[].concat.apply([], lists)`: the lists one after another. */
  function Flatten<T>(lists: seq<seq<T>>): seq<T>
  {
    if |lists| == 0 then [] else lists[0] + Flatten(lists[1..])
  }

  /** `Array.prototype.filter(x => x)` on results that may be missing. */
  function Successful<T>(xs: seq<Option<T>>): seq<T>
  {
    if |xs| == 0 then []
    else (if xs[0].Some? then [xs[0].value] else []) + Successful(xs[1..])
  }

  /** Exactly the present values survive the filter. */
  lemma {:induction false} SuccessfulMembership<T>(xs: seq<Option<T>>, x: T)
    ensures x in Successful(xs) <==> Some(x) in xs
  {
    if |xs| > 0 {
      SuccessfulMembership(xs[1..], x);
      assert xs == [xs[0]] + xs[1..];
    }
  }

  /** The filter keeps the order of its input: filtering a concatenation filters each part. */
  lemma {:induction false} SuccessfulAppend<T>(xs: seq<Option<T>>, ys: seq<Option<T>>)
    ensures Successful(xs + ys) == Successful(xs) + Successful(ys)
  {
    if |xs| == 0 {
      assert xs + ys == ys;
    } else {
      var head := if xs[0].Some? then [xs[0].value] else [];
      assert (xs + ys)[1..] == xs[1..] + ys;
      SuccessfulAppend(xs[1..], ys);
      calc {
        Successful(xs + ys);
        head + Successful(xs[1..] + ys);
        head + (Successful(xs[1..]) + Successful(ys));
        (head + Successful(xs[1..])) + Successful(ys);
      }
    }
  }

  /** The filter drops exactly the missing results: one entry fewer per missing result. */
  lemma {:induction false} SuccessfulLength<T>(xs: seq<Option<T>>)
    ensures |Successful(xs)| == |xs| - multiset(xs)[None]
    ensures |Successful(xs)| <= |xs|
    ensures None in xs ==> |Successful(xs)| < |xs|
  {
    if |xs| > 0 {
      SuccessfulLength(xs[1..]);
      assert xs == [xs[0]] + xs[1..];
      assert multiset(xs) == multiset([xs[0]]) + multiset(xs[1..]);
    }
  }

  /** Position of the last occurrence of `c` in `s`, if any. */
  function LastIndexOf(s: string, c: char): (r: Option<nat>)
    ensures r.Some? ==> r.value < |s| && s[r.value] == c
    ensures r.Some? ==> forall j :: r.value < j < |s| ==> s[j] != c
    ensures r.None? ==> c !in s
  {
    if |s| == 0 then None
    else if s[|s| - 1] == c then Some(|s| - 1)
    else
      var r := LastIndexOf(s[..|s| - 1], c);
      assert r.None? ==> s == s[..|s| - 1] + [s[|s| - 1]];
      r
  }
}

/** What the extension hands to a terminal: the command line and the terminal's options. */
module Terminal {
  import opened JsValues

  /** One call of `runInTerminal(command, { cwd, name })`. */
  datatype TerminalCommand = TerminalCommand(command: string, name: string, cwd: Option<string>)

  /** `"` + value + `"`: a double-quoted command-line argument. */
  function Quoted(value: string): string {
    "\"" + value + "\""
  }

  /** Splits a command line that ends in a double-quoted argument into what precedes the
      opening quote and the quoted text, taking the last quoted argument. */
  function SplitLastQuoted(cmd: string): Option<(string, string)>
  {
    if |cmd| >= 2 && cmd[|cmd| - 1] == '"' then
      var body := cmd[..|cmd| - 1];
      match LastIndexOf(body, '"')
      case Some(k) => Some((body[..k], body[k + 1..]))
      case None => None
    else
      None
  }

  /** The last occurrence of a character is the one with none after it. */
  lemma LastIndexOfIs(s: string, c: char, k: nat)
    requires k < |s| && s[k] == c
    requires forall j :: k < j < |s| ==> s[j] != c
    ensures LastIndexOf(s, c) == Some(k)
  {
    assert c in s;
  }

  /** Reading back a quoted last argument recovers it, provided it holds no quote itself. */
  lemma SplitLastQuotedInverse(before: string, value: string)
    requires '"' !in value
    ensures SplitLastQuoted(before + Quoted(value)) == Some((before, value))
  {
    var cmd := before + Quoted(value);
    var body := cmd[..|cmd| - 1];
    assert body == before + "\"" + value;
    assert body[|before| + 1..] == value;
    forall j | |before| < j < |body| ensures body[j] != '"' {
      assert body[j] == value[j - |before| - 1];
    }
    LastIndexOfIs(body, '"', |before|);
    assert body[..|before|] == before;
  }
}
