/** What the configuration file means, independently of how it is read, and that reading and printing agree. */
module QueueConfLaws {
  import opened Basics
  import opened Text
  import opened QueueConf
  import JsonPointer

  // ------------------------------------------------ what a file says

  /** One thing a file sets: that there is a block, a key outside it, or a key inside it. */
  datatype Entry = Block | Top(key: string, value: string) | Inner(key: string, value: string)

  function Id(e: Entry): string {
    match e
    case Block => REDIS
    case Top(key, _) => key
    case Inner(key, _) => InnerId(key)
  }

  /** The key is known and the value is one it can take. */
  predicate Good(url: string -> bool, e: Entry) {
    match e
    case Block => true
    case Top(key, value) =>
      || (key == QUEUE_MAX && JsonPointer.Atoi(value).Some? && JsonPointer.Atoi(value).value >= 1)
      || (key == QUEUE_FULL && value in ["drop", "wait"])
      || (key == QUEUE_EXPAND && value in ["off", "ask"])
    case Inner(key, value) => key in [URL, INTERNAL] && url(value)
  }

  datatype Shape = Shape(entries: seq<Entry>, inside: bool)

  /** The block structure alone: what is set so far, and whether the block is open. None when a line cannot stand
      where it stands. */
  function Outline(ms: seq<Meaning>): Option<Shape> {
    if ms == [] then Some(Shape([], false))
    else match Outline(ms[..|ms| - 1])
      case None => None
      case Some(s) => Extend(s, ms[|ms| - 1])
  }

  function Extend(s: Shape, m: Meaning): Option<Shape> {
    match m
    case Noise => Some(s)
    case Bad(_) => None
    case Close => if s.inside then Some(Shape(s.entries, false)) else None
    case Open(head) => if s.inside || head != REDIS then None else Some(Shape(s.entries + [Block], true))
    case Directive(key, value) =>
      Some(Shape(s.entries + [if s.inside then Inner(key, value) else Top(key, value)], s.inside))
  }

  function Ids(entries: seq<Entry>): set<string> {
    set e | e in entries :: Id(e)
  }

  /** Nothing is set twice. */
  predicate Distinct(entries: seq<Entry>) {
    forall j, k :: 0 <= j < k < |entries| ==> Id(entries[j]) != Id(entries[k])
  }

  predicate AllGood(url: string -> bool, entries: seq<Entry>) {
    forall k :: 0 <= k < |entries| ==> Good(url, entries[k])
  }

  /** The file's field for this entry has its value. */
  predicate Shows(f: QueueFile, e: Entry) {
    match e
    case Block => true
    case Top(key, value) =>
      if key == QUEUE_MAX then f.max == JsonPointer.Atoi(value)
      else if key == QUEUE_FULL then f.full == value
      else f.expand == value
    case Inner(key, value) => if key == URL then f.redisUrl == value else f.redisInternal == value
  }

  /** The file holds exactly what is set: every entry shows, and a field that is not set has its default. */
  ghost predicate Reflects(f: QueueFile, entries: seq<Entry>) {
    && (forall e :: e in entries ==> Shows(f, e))
    && (f.max.Some? ==> QUEUE_MAX in Ids(entries))
    && (f.full != "" ==> QUEUE_FULL in Ids(entries))
    && (f.expand != "" ==> QUEUE_EXPAND in Ids(entries))
    && (f.redisUrl != "" ==> InnerId(URL) in Ids(entries))
    && (f.redisInternal != "" ==> InnerId(INTERNAL) in Ids(entries))
  }

  // ------------------------------------------------ the parser reads exactly this

  ghost predicate Fits(url: string -> bool, ms: seq<Meaning>) {
    Outline(ms).Some? && Distinct(Outline(ms).value.entries) && AllGood(url, Outline(ms).value.entries)
  }

  /** What the state of the parser is after the lines of an outline. */
  ghost predicate Tracks(s: State, sh: Shape) {
    && Reflects(s.file, sh.entries) && s.seen == Ids(sh.entries)
    && s.block == (if sh.inside then REDIS else "")
  }

  lemma IdsSnoc(entries: seq<Entry>, e: Entry)
    ensures Ids(entries + [e]) == Ids(entries) + {Id(e)}
  {
    forall x ensures x in entries + [e] <==> x in entries || x == e {
    }
  }

  lemma DistinctSnoc(entries: seq<Entry>, e: Entry)
    ensures Distinct(entries + [e]) <==> Distinct(entries) && Id(e) !in Ids(entries)
  {
    var all := entries + [e];
    if Distinct(all) {
      assert forall j, k :: 0 <= j < k < |entries| ==> all[j] == entries[j] && all[k] == entries[k];
      forall x | x in entries ensures Id(x) != Id(e) {
        var j :| 0 <= j < |entries| && entries[j] == x;
        assert all[j] == x && all[|entries|] == e;
      }
    }
    if Distinct(entries) && Id(e) !in Ids(entries) {
      forall j, k | 0 <= j < k < |all| ensures Id(all[j]) != Id(all[k]) {
        assert all[j] == entries[j] && entries[j] in entries;
      }
    }
  }

  lemma GoodSnoc(url: string -> bool, entries: seq<Entry>, e: Entry)
    ensures AllGood(url, entries + [e]) <==> AllGood(url, entries) && Good(url, e)
  {
    var all := entries + [e];
    assert all[|entries|] == e;
    assert forall k :: 0 <= k < |entries| ==> all[k] == entries[k];
  }

  function SetEntry(url: string -> bool, f: QueueFile, e: Entry): Try<QueueFile> {
    match e
    case Block => Done(f)
    case Top(key, value) => SetTop(f, key, value)
    case Inner(key, value) => SetInner(url, f, key, value)
  }

  lemma IdsDiffer(e: Entry, x: Entry)
    requires Id(e) != Id(x)
    ensures !(e.Top? && x.Top? && e.key == x.key) && !(e.Inner? && x.Inner? && e.key == x.key)
  {
  }

  lemma SetKeepsOthers(url: string -> bool, f: QueueFile, e: Entry, x: Entry)
    requires Good(url, e) && Good(url, x) && Shows(f, x) && Id(e) != Id(x)
    ensures SetEntry(url, f, e).Done? && Shows(SetEntry(url, f, e).value, x)
  {
    IdsDiffer(e, x);
  }

  /** Setting something new is done exactly when it is good, and shows without hiding anything else. */
  lemma SetReflects(url: string -> bool, f: QueueFile, entries: seq<Entry>, e: Entry)
    requires Reflects(f, entries) && AllGood(url, entries) && Id(e) !in Ids(entries)
    ensures SetEntry(url, f, e).Done? <==> Good(url, e)
    ensures Good(url, e) ==> Reflects(SetEntry(url, f, e).value, entries + [e])
  {
    if Good(url, e) {
      var f' := SetEntry(url, f, e).value;
      forall x | x in entries + [e] ensures Shows(f', x) {
        if x in entries {
          assert Id(x) in Ids(entries);
          SetKeepsOthers(url, f, e, x);
        }
      }
      IdsSnoc(entries, e);
    }
  }

  lemma StepTracks(url: string -> bool, s: State, sh: Shape, n: nat, m: Meaning)
    requires Tracks(s, sh) && Distinct(sh.entries) && AllGood(url, sh.entries)
    ensures Step(url, s, n, m).Going? <==>
      Extend(sh, m).Some? && Distinct(Extend(sh, m).value.entries) && AllGood(url, Extend(sh, m).value.entries)
    ensures Step(url, s, n, m).Going? ==> Tracks(Step(url, s, n, m).s, Extend(sh, m).value)
  {
    if Extend(sh, m).Some? && (m.Open? || m.Directive?) {
      var e := Extend(sh, m).value.entries[|sh.entries|];
      assert Extend(sh, m).value.entries == sh.entries + [e];
      DistinctSnoc(sh.entries, e);
      GoodSnoc(url, sh.entries, e);
      IdsSnoc(sh.entries, e);
      if Id(e) !in Ids(sh.entries) {
        SetReflects(url, s.file, sh.entries, e);
      }
    }
  }

  /** As long as it goes on, the parser has read an outline with nothing set twice and every value good, and
      its file reflects it; it stops at the first line that breaks this. */
  lemma {:induction false} FoldTracks(url: string -> bool, ms: seq<Meaning>)
    ensures Fold(url, ms).Going? <==> Fits(url, ms)
    ensures Fold(url, ms).Going? ==> Tracks(Fold(url, ms).s, Outline(ms).value)
  {
    if ms != [] {
      var n := |ms| - 1;
      FoldTracks(url, ms[..n]);
      if Fits(url, ms[..n]) {
        StepTracks(url, Fold(url, ms[..n]).s, Outline(ms[..n]).value, |ms|, ms[n]);
      } else if Outline(ms).Some? {
        ExtendKeepsBad(url, Outline(ms[..n]).value, ms[n]);
      }
    }
  }

  lemma ExtendKeepsBad(url: string -> bool, sh: Shape, m: Meaning)
    requires Extend(sh, m).Some? && !(Distinct(sh.entries) && AllGood(url, sh.entries))
    ensures !(Distinct(Extend(sh, m).value.entries) && AllGood(url, Extend(sh, m).value.entries))
  {
    if m.Open? || m.Directive? {
      var e := Extend(sh, m).value.entries[|sh.entries|];
      DistinctSnoc(sh.entries, e);
      GoodSnoc(url, sh.entries, e);
    }
  }

  function LinesOf(src: string): seq<Meaning> {
    Meanings(JsonPointer.Split(src, '\n'))
  }

  /** A file is accepted exactly when its lines stand where they may, the block is closed, nothing is set twice
      and every value is good; the result is then the one that reflects what is set. */
  lemma AcceptsExactly(url: string -> bool, src: string)
    ensures ParseOf(url, src).Parsed? <==> Fits(url, LinesOf(src)) && !Outline(LinesOf(src)).value.inside
    ensures ParseOf(url, src).Parsed? ==> Reflects(ParseOf(url, src).file, Outline(LinesOf(src)).value.entries)
  {
    FoldTracks(url, LinesOf(src));
  }

  lemma SameEntries(a: seq<Entry>, b: seq<Entry>)
    requires forall e :: e in a <==> e in b
    ensures Ids(a) == Ids(b)
  {
  }

  /** Two files that reflect the same entries are the same. */
  lemma ReflectsOnce(url: string -> bool, f: QueueFile, a: seq<Entry>, g: QueueFile, b: seq<Entry>)
    requires Reflects(f, a) && Reflects(g, b) && AllGood(url, a) && forall e :: e in a <==> e in b
    ensures f == g
  {
    SameEntries(a, b);
    FieldsAgree(url, f, g, a);
    FieldsAgree(url, g, f, a);
  }

  /** Whatever is set in a shows the same in both. */
  lemma FieldsAgree(url: string -> bool, f: QueueFile, g: QueueFile, a: seq<Entry>)
    requires AllGood(url, a) && forall e :: e in a ==> Shows(f, e) && Shows(g, e)
    ensures QUEUE_MAX in Ids(a) ==> f.max == g.max
    ensures QUEUE_FULL in Ids(a) ==> f.full == g.full
    ensures QUEUE_EXPAND in Ids(a) ==> f.expand == g.expand
    ensures InnerId(URL) in Ids(a) ==> f.redisUrl == g.redisUrl
    ensures InnerId(INTERNAL) in Ids(a) ==> f.redisInternal == g.redisInternal
  {
    forall e | e in a ensures IdSaysField(f, g, e) {
      assert Good(url, e);
      IdSays(url, f, g, e);
    }
  }

  predicate IdSaysField(f: QueueFile, g: QueueFile, e: Entry) {
    && (Id(e) == QUEUE_MAX ==> f.max == g.max)
    && (Id(e) == QUEUE_FULL ==> f.full == g.full)
    && (Id(e) == QUEUE_EXPAND ==> f.expand == g.expand)
    && (Id(e) == InnerId(URL) ==> f.redisUrl == g.redisUrl)
    && (Id(e) == InnerId(INTERNAL) ==> f.redisInternal == g.redisInternal)
  }

  lemma IdSays(url: string -> bool, f: QueueFile, g: QueueFile, e: Entry)
    requires Good(url, e) && Shows(f, e) && Shows(g, e)
    ensures IdSaysField(f, g, e)
  {
    assert InnerId(URL)[0] == 'r' && InnerId(INTERNAL)[0] == 'r' && QUEUE_MAX[0] == QUEUE_FULL[0] == QUEUE_EXPAND[0] == 'q';
    assert |InnerId(URL)| != |InnerId(INTERNAL)| && |REDIS| < |InnerId(URL)|;
    assert QUEUE_MAX[6] != QUEUE_FULL[6] && QUEUE_MAX[6] != QUEUE_EXPAND[6] && QUEUE_FULL[6] != QUEUE_EXPAND[6];
  }

  // ------------------------------------------------ order and noise

  /** The lines that say something. */
  function Spoken(ms: seq<Meaning>): seq<Meaning> {
    if ms == [] then []
    else Spoken(ms[..|ms| - 1]) + if ms[|ms| - 1].Noise? then [] else [ms[|ms| - 1]]
  }

  lemma OutlineSnoc(ms: seq<Meaning>, m: Meaning)
    ensures Outline(ms + [m]) == match Outline(ms) case None => None case Some(s) => Extend(s, m)
  {
    assert (ms + [m])[..|ms|] == ms;
  }

  lemma {:induction false} NoiseSaysNothing(ms: seq<Meaning>)
    ensures Outline(Spoken(ms)) == Outline(ms)
  {
    if ms != [] {
      var n := |ms| - 1;
      NoiseSaysNothing(ms[..n]);
      if ms[n].Noise? {
        assert Spoken(ms) == Spoken(ms[..n]);
      } else {
        OutlineSnoc(Spoken(ms[..n]), ms[n]);
        assert Spoken(ms) == Spoken(ms[..n]) + [ms[n]];
      }
    }
  }

  ghost predicate Permuted(a: seq<Entry>, b: seq<Entry>) {
    multiset(a) == multiset(b)
  }

  lemma {:induction false} CountIds(entries: seq<Entry>)
    ensures |Ids(entries)| <= |entries|
    ensures Distinct(entries) <==> |Ids(entries)| == |entries|
  {
    if entries == [] {
      assert Ids(entries) == {};
    } else {
      var n := |entries| - 1;
      CountIds(entries[..n]);
      assert entries == entries[..n] + [entries[n]];
      IdsSnoc(entries[..n], entries[n]);
      DistinctSnoc(entries[..n], entries[n]);
    }
  }

  lemma PermutedAlike(url: string -> bool, a: seq<Entry>, b: seq<Entry>)
    requires Permuted(a, b)
    ensures forall e :: e in a <==> e in b
    ensures Distinct(a) <==> Distinct(b)
    ensures AllGood(url, a) <==> AllGood(url, b)
  {
    forall e ensures e in a <==> e in b {
      assert e in a <==> e in multiset(a);
      assert e in b <==> e in multiset(b);
    }
    CountIds(a);
    CountIds(b);
    SameEntries(a, b);
    assert |a| == |multiset(a)| && |b| == |multiset(b)|;
    assert AllGood(url, a) <==> forall e :: e in a ==> Good(url, e);
    assert AllGood(url, b) <==> forall e :: e in b ==> Good(url, e);
  }

  /** Files whose structure is sound and that set the same things, in whatever order and with whatever comments
      and blank lines between them, are accepted alike and give the same settings. */
  lemma OrderAndNoiseDoNotMatter(url: string -> bool, src: string, src': string)
    requires Outline(LinesOf(src)).Some? && Outline(LinesOf(src')).Some?
    requires Outline(LinesOf(src)).value.inside == Outline(LinesOf(src')).value.inside
    requires Permuted(Outline(LinesOf(src)).value.entries, Outline(LinesOf(src')).value.entries)
    ensures ParseOf(url, src).Parsed? <==> ParseOf(url, src').Parsed?
    ensures ParseOf(url, src).Parsed? ==> ParseOf(url, src) == ParseOf(url, src')
  {
    var a, b := Outline(LinesOf(src)).value.entries, Outline(LinesOf(src')).value.entries;
    AcceptsExactly(url, src);
    AcceptsExactly(url, src');
    PermutedAlike(url, a, b);
    if ParseOf(url, src).Parsed? {
      ReflectsOnce(url, ParseOf(url, src).file, a, ParseOf(url, src').file, b);
    }
  }

  // ------------------------------------------------ what a line says

  /** A line counts up to its first comment sign. */
  lemma {:induction false} CommentsEndLines(line: string)
    ensures var n := |BeforeHash(line)|;
      n <= |line| && BeforeHash(line) == line[..n] && '#' !in BeforeHash(line) && (n < |line| ==> line[n] == '#')
  {
    if line != "" && line[0] != '#' {
      CommentsEndLines(line[1..]);
    }
  }

  lemma {:induction false} CutsAtSpace(key: string, rest: string)
    requires ' ' !in key
    ensures CutSpace(key + " " + rest) == Some((key, rest))
  {
    var s := key + " " + rest;
    if key == "" {
      assert s[1..] == rest;
    } else {
      assert s[1..] == key[1..] + " " + rest;
      CutsAtSpace(key[1..], rest);
      assert key == [key[0]] + key[1..];
    }
  }

  lemma {:induction false} CutParts(s: string)
    ensures CutSpace(s).Some? <==> ' ' in s
    ensures CutSpace(s).Some? ==>
      var (key, rest) := CutSpace(s).value; s == key + " " + rest && ' ' !in key
  {
    if s != "" && s[0] != ' ' {
      CutParts(s[1..]);
      assert s == [s[0]] + s[1..];
    } else if s != "" {
      assert s == "" + " " + s[1..];
    }
  }

  /** A value: something, in one piece. */
  predicate OneValue(v: string) {
    v != "" && Snug(v) && ' ' !in v && '\t' !in v
  }

  /** A name, a space, a value and a semicolon, with white space around and between. */
  ghost predicate SpelledOut(text: string, key: string, value: string) {
    exists a, p, b :: Spelled(text, key, value, a, p, b)
  }

  predicate Spelled(text: string, key: string, value: string, a: string, p: string, b: string) {
    && IsConfName(key) && OneValue(value) && Blank(a) && Blank(p) && Blank(b)
    && text == a + (key + " " + p + value) + b + ";"
  }

  lemma SnugTrims(s: string)
    requires Snug(s)
    ensures Trim(s) == s
  {
    TrimsToSnug("", s, "");
    assert "" + s + "" == s;
  }

  lemma StatementSplits(key: string, p: string, value: string)
    requires IsConfName(key) && OneValue(value) && Blank(p)
    ensures Snug(key + " " + p + value) && SplitDirective(key + " " + p + value) == Done((key, value))
  {
    var stmt := key + " " + p + value;
    assert stmt[0] == key[0] && stmt[|stmt| - 1] == value[|value| - 1];
    SnugTrims(stmt);
    assert stmt == key + " " + (p + value);
    CutsAtSpace(key, p + value);
    TrimsToSnug(p, value, "");
    assert p + value + "" == p + value;
  }

  lemma SpelledReads(text: string, key: string, value: string, a: string, p: string, b: string)
    requires Spelled(text, key, value, a, p, b)
    ensures TextMeaning(text) == Directive(key, value)
  {
    StatementSplits(key, p, value);
    LastIsSemicolon(a + (key + " " + p + value) + b);
    TrimsToSnug(a, key + " " + p + value, b);
  }

  lemma LastIsSemicolon(body: string)
    ensures (body + ";")[..|body|] == body && (body + ";")[|body|] == ';' && TextMeaning(body + ";") == Statement(body + ";")
  {
  }

  lemma SplitParts(stmt: string, key: string, value: string) returns (p: string, q: string)
    requires Snug(stmt) && SplitDirective(stmt) == Done((key, value))
    ensures stmt == key + " " + (p + value + q) && Blank(p) && Blank(q) && IsConfName(key) && OneValue(value)
  {
    SnugTrims(stmt);
    CutParts(stmt);
    p, q := TrimParts(CutSpace(stmt).value.1);
  }

  lemma Regrouped(a: string, k: string, p: string, v: string, q: string, b: string)
    ensures a + (k + " " + (p + v + q)) + b + ";" == a + (k + " " + p + v) + (q + b) + ";"
  {
  }

  lemma ReadIsSpelled(text: string, key: string, value: string)
    requires TextMeaning(text) == Directive(key, value)
    ensures SpelledOut(text, key, value)
  {
    var body := text[..|text| - 1];
    assert text == body + ";";
    var a, b := TrimParts(body);
    var p, q := SplitParts(Trim(body), key, value);
    Regrouped(a, key, p, value, q, b);
    assert Spelled(text, key, value, a, p, q + b);
  }

  /** A line sets a key exactly when it is spelled so; in particular nothing is set without a semicolon at the end. */
  lemma DirectivesExactly(text: string, key: string, value: string)
    ensures TextMeaning(text) == Directive(key, value) <==> SpelledOut(text, key, value)
    ensures TextMeaning(text).Directive? ==> text != "" && text[|text| - 1] == ';'
  {
    if TextMeaning(text) == Directive(key, value) {
      ReadIsSpelled(text, key, value);
    }
    if a, p, b :| Spelled(text, key, value, a, p, b) {
      SpelledReads(text, key, value, a, p, b);
    }
  }

  /** A line is nothing when it is empty, closes a block when it is a brace, opens one when it ends in the other brace,
      and is in error without a semicolon when it is none of these and does not end in one. */
  lemma OtherLinesExactly(text: string)
    ensures TextMeaning(text).Noise? <==> text == ""
    ensures TextMeaning(text).Close? <==> text == "}"
    ensures TextMeaning(text).Open? <==> text != "" && text[|text| - 1] == '{'
    ensures TextMeaning(text).Open? ==> TextMeaning(text).head == Trim(text[..|text| - 1])
    ensures text != "" && text != "}" && text[|text| - 1] != '{' && text[|text| - 1] != ';' ==>
      TextMeaning(text) == Bad(NoSemicolon)
  {
  }
}
