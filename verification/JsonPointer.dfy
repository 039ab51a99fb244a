/**
 The two ways a value inside a document is found: by a JSON Pointer (RFC 6901, sections 3 and 4),
 split and unescaped, and by a list of steps. They agree on every document and every list of steps.
 */
module JsonPointer {
  import opened Basics

  datatype Doc =
    | Null
    | Bool(b: bool)
    | Num(text: string)
    | Str(text: string)
    | List(elems: seq<Doc>)
    | Dict(members: map<string, Doc>)

  // ------------------------------------------------ integers in text

  predicate IsDigits(s: string) {
    s != "" && forall k :: 0 <= k < |s| ==> '0' <= s[k] <= '9'
  }

  function DigitsValue(s: string): nat
    requires forall k :: 0 <= k < |s| ==> '0' <= s[k] <= '9'
  {
    if s == "" then 0 else 10 * DigitsValue(s[..|s| - 1]) + (s[|s| - 1] as int - '0' as int)
  }

  const MAX_INT64 := 9223372036854775807

  /** strconv.Atoi: an optional sign, decimal digits, and the range of a 64-bit integer. */
  function Atoi(s: string): Option<int> {
    var signed := s != "" && (s[0] == '-' || s[0] == '+');
    var digits := if signed then s[1..] else s;
    if !IsDigits(digits) then None
    else
      var v: int := DigitsValue(digits);
      if signed && s[0] == '-' then (if v <= MAX_INT64 + 1 then Option<int>.Some(-v) else Option<int>.None)
      else if v <= MAX_INT64 then Option<int>.Some(v) else Option<int>.None
  }

  // ------------------------------------------------ integers written and read

  function Decimal(n: nat): string {
    if n < 10 then [(n + '0' as int) as char] else Decimal(n / 10) + [(n % 10 + '0' as int) as char]
  }

  lemma {:induction false} DecimalReads(n: nat)
    ensures IsDigits(Decimal(n)) && DigitsValue(Decimal(n)) == n
  {
    var s := Decimal(n);
    if n >= 10 {
      DecimalReads(n / 10);
      assert s[..|s| - 1] == Decimal(n / 10);
    } else {
      assert s[..0] == "";
    }
  }

  /** The texts that read as this integer: its digits, perhaps with zeros before them, with the sign it needs or, where
      it is not negative, a plus or none; nothing beyond 64 bits. */
  predicate WrittenAs(n: int, s: string, digits: string) {
    && IsDigits(digits)
    && ((s == digits && DigitsValue(digits) == n) || (s == "+" + digits && DigitsValue(digits) == n)
        || (s == "-" + digits && DigitsValue(digits) == -n))
    && -MAX_INT64 - 1 <= n <= MAX_INT64
  }

  lemma AtoiReadsExactly(s: string, n: int)
    ensures Atoi(s) == Some(n) <==> exists digits :: WrittenAs(n, s, digits)
  {
    if Atoi(s) == Some(n) {
      var signed := s[0] == '-' || s[0] == '+';
      var digits := if signed then s[1..] else s;
      assert signed ==> s == [s[0]] + digits;
      assert WrittenAs(n, s, digits);
    }
    if digits :| WrittenAs(n, s, digits) {
      assert '0' <= digits[0] <= '9';
      if s != digits {
        assert s[1..] == digits;
      }
    }
  }

  lemma AtoiReadsDecimal(n: nat)
    requires n <= MAX_INT64
    ensures Atoi(Decimal(n)) == Some(n)
  {
    DecimalReads(n);
    assert WrittenAs(n, Decimal(n), Decimal(n));
    AtoiReadsExactly(Decimal(n), n);
  }

  // ------------------------------------------------ steps

  /** One step: a member of an object or an index into an array. */
  function Child(doc: Doc, step: string): Option<Doc> {
    match doc
    case Dict(members) => if step in members then Some(members[step]) else None
    case List(elems) =>
      var i := Atoi(step);
      if i.Some? && 0 <= i.value < |elems| then Some(elems[i.value]) else None
    case _ => None
  }

  function Walk(doc: Doc, steps: seq<string>): Option<Doc> {
    if steps == [] then Some(doc)
    else match Walk(doc, steps[..|steps| - 1])
      case None => None
      case Some(at) => Child(at, steps[|steps| - 1])
  }

  lemma {:induction false} WalkStops(doc: Doc, steps: seq<string>, k: nat)
    requires k <= |steps| && Walk(doc, steps[..k]).None?
    ensures Walk(doc, steps).None?
    decreases |steps| - k
  {
    if k == |steps| {
      assert steps[..k] == steps;
    } else {
      assert steps[..k + 1][..k] == steps[..k];
      WalkStops(doc, steps, k + 1);
    }
  }

  /** The switch both evaluators make on the node they stand on. */
  method Descend(cur: Doc, token: string) returns (next: Option<Doc>)
    ensures next == Child(cur, token)
  {
    match cur {
      case Dict(members) =>
        if token !in members {
          return None;
        }
        return Some(members[token]);
      case List(elems) =>
        var n := Atoi(token);
        if n.None? || n.value < 0 || n.value >= |elems| {
          return None;
        }
        return Some(elems[n.value]);
      case Null => return None;
      case Bool(_) => return None;
      case Num(_) => return None;
      case Str(_) => return None;
    }
  }

  /** The walker over a list of steps. */
  method ValueAt(doc: Doc, loc: seq<string>) returns (found: Option<Doc>)
    ensures found == Walk(doc, loc)
  {
    var cur := doc;
    for i := 0 to |loc|
      invariant Walk(doc, loc[..i]) == Some(cur)
    {
      assert loc[..i + 1][..i] == loc[..i];
      var next := Descend(cur, loc[i]);
      if next.None? {
        WalkStops(doc, loc, i + 1);
        return None;
      }
      cur := next.value;
    }
    assert loc[..|loc|] == loc;
    return Some(cur);
  }

  // ------------------------------------------------ text

  /** strings.Split on one character: always at least one part. */
  function Split(s: string, sep: char): (parts: seq<string>)
    ensures parts != []
  {
    if s == "" then [""]
    else if s[0] == sep then [""] + Split(s[1..], sep)
    else
      var rest := Split(s[1..], sep);
      [[s[0]] + rest[0]] + rest[1..]
  }

  function Join(parts: seq<string>, sep: char): string {
    if parts == [] then ""
    else if |parts| == 1 then parts[0]
    else parts[0] + [sep] + Join(parts[1..], sep)
  }

  /** strings.ReplaceAll of the two characters a, b by the one character r. */
  function ReplacePair(s: string, a: char, b: char, r: char): string {
    if |s| < 2 then s
    else if s[0] == a && s[1] == b then [r] + ReplacePair(s[2..], a, b, r)
    else [s[0]] + ReplacePair(s[1..], a, b, r)
  }

  /** Two passes, in the order the code makes them. */
  function Unescape(raw: string): string {
    ReplacePair(ReplacePair(raw, '~', '1', '/'), '~', '0', '~')
  }

  function UnescapeAll(raws: seq<string>): (tokens: seq<string>)
    ensures |tokens| == |raws| && forall i :: 0 <= i < |raws| ==> tokens[i] == Unescape(raws[i])
  {
    seq(|raws|, i requires 0 <= i < |raws| => Unescape(raws[i]))
  }

  function Escape(token: string): string {
    if token == "" then ""
    else (if token[0] == '~' then "~0" else if token[0] == '/' then "~1" else [token[0]]) + Escape(token[1..])
  }

  /** A pointer as RFC 6901 writes it. */
  function Render(tokens: seq<string>): string {
    if tokens == [] then ""
    else "/" + Join(seq(|tokens|, i requires 0 <= i < |tokens| => Escape(tokens[i])), '/')
  }

  /** What evaluating a pointer means. */
  function PointerValue(doc: Doc, ptr: string): Option<Doc> {
    if ptr == "" then Some(doc)
    else if ptr[0] != '/' then None
    else Walk(doc, UnescapeAll(Split(ptr[1..], '/')))
  }

  /** The evaluator in frame.go. */
  method Pointer(doc: Doc, ptr: string) returns (found: Option<Doc>)
    ensures found == PointerValue(doc, ptr)
  {
    if ptr == "" {
      return Some(doc);
    }
    if ptr[0] != '/' {
      return None;
    }
    var raws := Split(ptr[1..], '/');
    ghost var tokens := UnescapeAll(raws);
    var cur := doc;
    for i := 0 to |raws|
      invariant Walk(doc, tokens[..i]) == Some(cur)
    {
      assert tokens[..i + 1][..i] == tokens[..i];
      var token := Unescape(raws[i]);
      assert tokens[..i + 1][i] == token;
      var next := Descend(cur, token);
      if next.None? {
        WalkStops(doc, tokens, i + 1);
        return None;
      }
      cur := next.value;
    }
    assert tokens[..|raws|] == tokens;
    return Some(cur);
  }

  // ------------------------------------------------ escaping

  /** Reading escapes in a single pass from the left. */
  function OnePass(s: string): string {
    if |s| < 2 then s
    else if s[0] == '~' && s[1] == '1' then "/" + OnePass(s[2..])
    else if s[0] == '~' && s[1] == '0' then "~" + OnePass(s[2..])
    else [s[0]] + OnePass(s[1..])
  }

  /** The first pass neither makes nor hides an escape of the second: two passes read every
      string as one pass would. */
  lemma {:induction false} TwoPassesAreOne(s: string)
    ensures Unescape(s) == OnePass(s)
    decreases |s|
  {
    if |s| < 2 {
    } else if s[0] == '~' && s[1] == '1' {
      TwoPassesAreOne(s[2..]);
      var t := ReplacePair(s[2..], '~', '1', '/');
      assert ReplacePair(s, '~', '1', '/') == "/" + t;
      SkipsPlain('/', t);
    } else if s[0] == '~' && s[1] == '0' {
      TwoPassesAreOne(s[2..]);
      assert s == "~0" + s[2..];
      TildeZero(s[2..]);
    } else {
      TwoPassesAreOne(s[1..]);
      var t := ReplacePair(s[1..], '~', '1', '/');
      assert ReplacePair(s, '~', '1', '/') == [s[0]] + t;
      if s[0] == '~' {
        FirstPassHead(s[1..]);
        assert t[0] != '0';
        assert ([s[0]] + t)[1..] == t;
      } else {
        SkipsPlain(s[0], t);
      }
    }
  }

  /** An escaped tilde gets through the first pass and is read by the second. */
  lemma TildeZero(u: string)
    ensures Unescape("~0" + u) == "~" + Unescape(u)
  {
    var s, t := "~0" + u, ReplacePair(u, '~', '1', '/');
    assert s[1..] == "0" + u && ("0" + u)[1..] == u;
    assert ReplacePair(s, '~', '1', '/') == "~" + ("0" + t);
    assert ("~" + ("0" + t))[2..] == t;
  }

  /** The second pass steps over any character but a tilde. */
  lemma SkipsPlain(c: char, t: string)
    requires c != '~'
    ensures ReplacePair([c] + t, '~', '0', '~') == [c] + ReplacePair(t, '~', '0', '~')
  {
    assert ([c] + t)[1..] == t;
  }

  lemma FirstPassHead(u: string)
    requires u != ""
    ensures var t := ReplacePair(u, '~', '1', '/'); t != "" && (t[0] == u[0] || (u[0] == '~' && t[0] == '/'))
  {
  }

  lemma {:induction false} OnePassInvertsEscape(token: string)
    ensures OnePass(Escape(token)) == token
  {
    if token != "" {
      var c, rest := token[0], Escape(token[1..]);
      OnePassInvertsEscape(token[1..]);
      if c == '~' {
        assert Escape(token) == "~0" + rest && ("~0" + rest)[2..] == rest;
      } else if c == '/' {
        assert Escape(token) == "~1" + rest && ("~1" + rest)[2..] == rest;
      } else {
        assert Escape(token) == [c] + rest && ([c] + rest)[1..] == rest;
      }
      assert token == [c] + token[1..];
    }
  }

  /** The two passes invert the escaping of RFC 6901 for every string. */
  lemma UnescapeInvertsEscape(token: string)
    ensures Unescape(Escape(token)) == token
  {
    TwoPassesAreOne(Escape(token));
    OnePassInvertsEscape(token);
  }

  lemma {:induction false} EscapeHidesSlashes(token: string)
    ensures '/' !in Escape(token)
  {
    if token != "" {
      EscapeHidesSlashes(token[1..]);
    }
  }

  lemma {:induction false} SplitNoSep(s: string, sep: char)
    requires sep !in s
    ensures Split(s, sep) == [s]
  {
    if s != "" {
      SplitNoSep(s[1..], sep);
      assert [s[0]] + s[1..] == s;
    }
  }

  lemma {:induction false} SplitAtSep(a: string, b: string, sep: char)
    requires sep !in a
    ensures Split(a + [sep] + b, sep) == [a] + Split(b, sep)
  {
    var s := a + [sep] + b;
    if a == "" {
      assert s[1..] == b;
    } else {
      SplitAtSep(a[1..], b, sep);
      assert s[1..] == a[1..] + [sep] + b;
      assert [a[0]] + a[1..] == a;
    }
  }

  /** Splitting undoes joining when no part holds the separator. */
  lemma {:induction false} SplitInvertsJoin(parts: seq<string>, sep: char)
    requires parts != [] && forall k :: 0 <= k < |parts| ==> sep !in parts[k]
    ensures Split(Join(parts, sep), sep) == parts
  {
    if |parts| == 1 {
      SplitNoSep(parts[0], sep);
    } else {
      SplitInvertsJoin(parts[1..], sep);
      SplitAtSep(parts[0], Join(parts[1..], sep), sep);
    }
  }

  /** For every document and every list of steps the two evaluators find the same value. */
  lemma EvaluatorsAgree(doc: Doc, tokens: seq<string>)
    ensures PointerValue(doc, Render(tokens)) == Walk(doc, tokens)
  {
    if tokens != [] {
      var raws := seq(|tokens|, i requires 0 <= i < |tokens| => Escape(tokens[i]));
      forall k | 0 <= k < |raws| ensures '/' !in raws[k] && Unescape(raws[k]) == tokens[k] {
        EscapeHidesSlashes(tokens[k]);
        UnescapeInvertsEscape(tokens[k]);
      }
      SplitInvertsJoin(raws, '/');
      assert Render(tokens)[1..] == Join(raws, '/');
      assert UnescapeAll(raws) == tokens;
    }
  }

  // ------------------------------------------------ places in a document

  /** A step into a document: the member of this name, or the element at this index. */
  datatype Place = Member(name: string) | Index(i: nat)

  function Into(doc: Doc, p: Place): Option<Doc> {
    if p.Member? && doc.Dict? && p.name in doc.members then Some(doc.members[p.name])
    else if p.Index? && doc.List? && p.i < |doc.elems| then Some(doc.elems[p.i])
    else None
  }

  /** What stands at the end of the steps. */
  function At(doc: Doc, path: seq<Place>): Option<Doc> {
    if path == [] then Some(doc)
    else match At(doc, path[..|path| - 1])
      case None => None
      case Some(d) => Into(d, path[|path| - 1])
  }

  /** The step as it is written. */
  function StepText(p: Place): string {
    match p
    case Member(name) => name
    case Index(i) => Decimal(i)
  }

  function Texts(path: seq<Place>): seq<string> {
    seq(|path|, k requires 0 <= k < |path| => StepText(path[k]))
  }

  predicate Countable(path: seq<Place>) {
    forall k :: 0 <= k < |path| && path[k].Index? ==> path[k].i <= MAX_INT64
  }

  /** The text names the member of this name, or reads as this index. */
  ghost predicate NamesStep(text: string, p: Place) {
    match p
    case Member(name) => text == name
    case Index(i) => exists digits :: WrittenAs(i, text, digits)
  }

  lemma ChildIsInto(doc: Doc, p: Place)
    requires Into(doc, p).Some? && (p.Index? ==> p.i <= MAX_INT64)
    ensures Child(doc, StepText(p)) == Into(doc, p)
  {
    if p.Index? {
      AtoiReadsDecimal(p.i);
    }
  }

  /** Both evaluators reach every place of a document by the names and indices that lead to it. */
  lemma {:induction false} EveryPlaceIsReached(doc: Doc, path: seq<Place>)
    requires Countable(path) && At(doc, path).Some?
    ensures Walk(doc, Texts(path)) == At(doc, path) == PointerValue(doc, Render(Texts(path)))
  {
    EvaluatorsAgree(doc, Texts(path));
    if path != [] {
      var n := |path| - 1;
      EveryPlaceIsReached(doc, path[..n]);
      assert Texts(path)[..n] == Texts(path[..n]);
      ChildIsInto(At(doc, path[..n]).value, path[n]);
    }
  }

  lemma ChildNamesInto(doc: Doc, step: string) returns (p: Place)
    requires Child(doc, step).Some?
    ensures Into(doc, p) == Child(doc, step) && NamesStep(step, p)
  {
    if doc.Dict? {
      p := Member(step);
    } else {
      p := Index(Atoi(step).value);
      AtoiReadsExactly(step, Atoi(step).value);
    }
  }

  ghost predicate LeadsTo(doc: Doc, steps: seq<string>, path: seq<Place>) {
    |path| == |steps| && At(doc, path) == Walk(doc, steps)
    && forall k :: 0 <= k < |steps| ==> NamesStep(steps[k], path[k])
  }

  lemma LeadsSnoc(doc: Doc, steps: seq<string>, step: string, before: seq<Place>, p: Place)
    requires LeadsTo(doc, steps, before) && Walk(doc, steps).Some?
    requires Into(Walk(doc, steps).value, p) == Child(Walk(doc, steps).value, step) && NamesStep(step, p)
    ensures LeadsTo(doc, steps + [step], before + [p])
  {
    assert (steps + [step])[..|steps|] == steps && (before + [p])[..|before|] == before;
  }

  /** And whatever they find stands at a place that the steps name, one by one. */
  lemma {:induction false} WhatIsFoundHasAPlace(doc: Doc, steps: seq<string>) returns (path: seq<Place>)
    requires Walk(doc, steps).Some?
    ensures LeadsTo(doc, steps, path)
  {
    if steps == [] {
      path := [];
    } else {
      var n := |steps| - 1;
      var before := WhatIsFoundHasAPlace(doc, steps[..n]);
      var p := ChildNamesInto(Walk(doc, steps[..n]).value, steps[n]);
      LeadsSnoc(doc, steps[..n], steps[n], before, p);
      assert steps == steps[..n] + [steps[n]];
      path := before + [p];
    }
  }
}
