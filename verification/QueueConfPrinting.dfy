/** Writing the queue's settings down, and reading them back. */
module QueueConfPrinting {
  import opened Basics
  import opened Text
  import opened QueueConf
  import opened QueueConfLaws
  import JsonPointer

  // ------------------------------------------------ printing

  lemma DigitsArePlain(s: string)
    requires JsonPointer.IsDigits(s)
    ensures Plain(s)
  {
  }

  lemma DecimalReadsPlainly(n: nat)
    requires n <= JsonPointer.MAX_INT64
    ensures JsonPointer.Atoi(JsonPointer.Decimal(n)) == Some(n) && Plain(JsonPointer.Decimal(n))
  {
    JsonPointer.AtoiReadsDecimal(n);
    JsonPointer.DecimalReads(n);
    DigitsArePlain(JsonPointer.Decimal(n));
  }

  /** A value that can be written as it is: no white space and no comment sign. */
  predicate Plain(v: string) {
    v != "" && forall k :: 0 <= k < |v| ==> !IsSpace(v[k]) && v[k] != '#'
  }

  /** Settings that can be written down. */
  predicate Writable(url: string -> bool, f: QueueFile) {
    && (f.max.Some? ==> 1 <= f.max.value <= JsonPointer.MAX_INT64)
    && f.full in ["", "drop", "wait"] && f.expand in ["", "off", "ask"]
    && (f.redisUrl != "" ==> url(f.redisUrl) && Plain(f.redisUrl))
    && (f.redisInternal != "" ==> url(f.redisInternal) && Plain(f.redisInternal))
  }

  function Opt(present: bool, e: Entry): seq<Entry> { if present then [e] else [] }

  function MaxText(f: QueueFile): string {
    if f.max.Some? && f.max.value >= 0 then JsonPointer.Decimal(f.max.value) else ""
  }

  function TopEntries(f: QueueFile): seq<Entry> {
    Opt(f.max.Some?, Top(QUEUE_MAX, MaxText(f)))
    + Opt(f.full != "", Top(QUEUE_FULL, f.full)) + Opt(f.expand != "", Top(QUEUE_EXPAND, f.expand))
  }

  function BlockEntries(f: QueueFile): seq<Entry> {
    Opt(f.redisUrl != "" || f.redisInternal != "", Block)
    + Opt(f.redisUrl != "", Inner(URL, f.redisUrl)) + Opt(f.redisInternal != "", Inner(INTERNAL, f.redisInternal))
  }

  /** The entries that say f. */
  function EntriesOf(f: QueueFile): seq<Entry> {
    TopEntries(f) + BlockEntries(f)
  }

  /** What is printed, in this order; the keys of the block follow its head. */
  datatype Item = Setting(key: string, value: string) | Redis(keys: seq<(string, string)>)

  function KeyLines(keys: seq<(string, string)>): seq<string> {
    seq(|keys|, k requires 0 <= k < |keys| => DirectiveLine(keys[k].0, keys[k].1))
  }

  function DirectiveLine(key: string, value: string): string {
    key + " " + value + ";"
  }

  function ItemLines(i: Item): seq<string> {
    match i
    case Setting(key, value) => [DirectiveLine(key, value)]
    case Redis(keys) => ["redis {"] + KeyLines(keys) + ["}"]
  }

  function Printed(items: seq<Item>): seq<string> {
    if items == [] then [] else Printed(items[..|items| - 1]) + ItemLines(items[|items| - 1])
  }

  function ItemEntries(i: Item): seq<Entry> {
    match i
    case Setting(key, value) => [Top(key, value)]
    case Redis(keys) => [Block] + InnerEntries(keys)
  }

  function InnerEntries(keys: seq<(string, string)>): seq<Entry> {
    seq(|keys|, k requires 0 <= k < |keys| => Inner(keys[k].0, keys[k].1))
  }

  function AllEntries(items: seq<Item>): seq<Entry> {
    if items == [] then [] else AllEntries(items[..|items| - 1]) + ItemEntries(items[|items| - 1])
  }

  /** A line as somebody may write it: indented, with blanks after it, and with a comment. */
  datatype Row = Row(indent: string, code: string, blanks: string, comment: Option<string>)

  function Written(r: Row): string {
    r.indent + r.code + r.blanks + if r.comment.Some? then "#" + r.comment.value else ""
  }

  predicate AllSpace(s: string) {
    forall k :: 0 <= k < |s| ==> IsSpace(s[k]) && s[k] != '\n'
  }

  predicate Tidy(r: Row) {
    AllSpace(r.indent) && AllSpace(r.blanks) && Tight(r.code) && (r.comment.Some? ==> '\n' !in r.comment.value)
  }

  function Codes(rows: seq<Row>): seq<string> {
    if rows == [] then []
    else Codes(rows[..|rows| - 1]) + if rows[|rows| - 1].code == "" then [] else [rows[|rows| - 1].code]
  }

  function WrittenAll(rows: seq<Row>): seq<string> {
    seq(|rows|, k requires 0 <= k < |rows| => Written(rows[k]))
  }

  // ------------------------------------------------ reading what was printed

  /** Text that trimming leaves alone and that holds no comment. */
  predicate Tight(s: string) {
    && '#' !in s && '\n' !in s
    && (s != "" ==> !IsSpace(s[0]) && !IsSpace(s[|s| - 1]))
  }

  lemma TrimsTight(s: string)
    requires s == "" || (!IsSpace(s[0]) && !IsSpace(s[|s| - 1]))
    ensures Trim(s) == s
  {
  }

  lemma {:induction false} HashEnds(s: string, rest: string)
    requires '#' !in s
    ensures BeforeHash(s + rest) == s + BeforeHash(rest)
  {
    if s == "" {
      assert s + rest == rest;
    } else {
      assert (s + rest)[1..] == s[1..] + rest;
      HashEnds(s[1..], rest);
      assert s == [s[0]] + s[1..];
    }
  }

  lemma SpacesHideNothing(s: string)
    requires AllSpace(s)
    ensures '#' !in s && '\n' !in s
  {
  }

  lemma CommentEnds(text: string, comment: Option<string>)
    requires '#' !in text
    ensures BeforeHash(text + if comment.Some? then "#" + comment.value else "") == text
  {
    HashEnds(text, if comment.Some? then "#" + comment.value else "");
  }

  lemma NoneInConcat(c: char, a: string, b: string)
    ensures c in a + b <==> c in a || c in b
  {
  }

  /** Indentation, trailing blanks and comments do not change what a line says. */
  lemma RowSaysItsCode(r: Row)
    requires Tidy(r)
    ensures ConfText(Written(r)) == r.code
  {
    SpacesHideNothing(r.indent);
    SpacesHideNothing(r.blanks);
    NoneInConcat('#', r.indent, r.code);
    NoneInConcat('#', r.indent + r.code, r.blanks);
    CommentEnds(r.indent + r.code + r.blanks, r.comment);
    TrimsToSnug(r.indent, r.code, r.blanks);
  }

  lemma RowIsOneLine(r: Row)
    requires Tidy(r)
    ensures '\n' !in Written(r)
  {
    SpacesHideNothing(r.indent);
    SpacesHideNothing(r.blanks);
    NoneInConcat('\n', r.indent, r.code);
    NoneInConcat('\n', r.indent + r.code, r.blanks);
  }

  lemma NamesAreTight(key: string)
    requires IsConfName(key)
    ensures ' ' !in key && '#' !in key && '\n' !in key && !IsSpace(key[0])
  {
  }

  lemma DirectiveReads(key: string, value: string)
    requires IsConfName(key) && Plain(value)
    ensures Tight(DirectiveLine(key, value)) && TextMeaning(DirectiveLine(key, value)) == Directive(key, value)
  {
    var line := DirectiveLine(key, value);
    var stmt := key + " " + value;
    NamesAreTight(key);
    assert '#' !in value && '\n' !in value && ' ' !in value && '\t' !in value;
    assert line == stmt + ";" && line[..|line| - 1] == stmt;
    assert stmt[0] == key[0] && stmt[|stmt| - 1] == value[|value| - 1];
    TrimsTight(stmt);
    TrimsTight(value);
    CutsAtSpace(key, value);
  }

  lemma BlockReads()
    ensures Tight("redis {") && TextMeaning("redis {") == Open(REDIS)
    ensures Tight("}") && TextMeaning("}") == Close
  {
    var head := "redis {";
    assert head[..6] == "redis" + " ";
    TrimsRight("redis", " ");
    assert TrimLeft(head[..6]) == head[..6];
  }

  function Said(codes: seq<string>): (ms: seq<Meaning>)
    ensures |ms| == |codes| && forall k :: 0 <= k < |codes| ==> ms[k] == TextMeaning(codes[k])
  {
    seq(|codes|, k requires 0 <= k < |codes| => TextMeaning(codes[k]))
  }

  /** Lines say what their codes say, and only blank ones say nothing. */
  lemma {:induction false} RowsSayCodes(rows: seq<Row>)
    requires forall r :: r in rows ==> Tidy(r)
    ensures Spoken(Meanings(WrittenAll(rows))) == Said(Codes(rows))
  {
    if rows != [] {
      var n := |rows| - 1;
      RowsSayCodes(rows[..n]);
      RowSaysItsCode(rows[n]);
      var ms := Meanings(WrittenAll(rows));
      assert ms[..n] == Meanings(WrittenAll(rows[..n]));
      assert ms[n] == TextMeaning(rows[n].code);
      if rows[n].code != "" {
        NotNoise(rows[n].code);
        assert Said([rows[n].code]) == [ms[n]];
        SaidConcat(Codes(rows[..n]), [rows[n].code]);
      }
    }
  }

  lemma NotNoise(text: string)
    requires text != ""
    ensures !TextMeaning(text).Noise?
  {
  }

  predicate Sayable(e: Entry) {
    e.Block? || (IsConfName(e.key) && Plain(e.value))
  }

  lemma SaidConcat(a: seq<string>, b: seq<string>)
    ensures Said(a + b) == Said(a) + Said(b)
  {
  }

  lemma KeysSnoc(keys: seq<(string, string)>, k: string, v: string)
    ensures KeyLines(keys + [(k, v)]) == KeyLines(keys) + [DirectiveLine(k, v)]
    ensures InnerEntries(keys + [(k, v)]) == InnerEntries(keys) + [Inner(k, v)]
  {
  }

  lemma SaidDirective(k: string, v: string)
    requires IsConfName(k) && Plain(v)
    ensures Said([DirectiveLine(k, v)]) == [Directive(k, v)]
  {
    DirectiveReads(k, v);
  }

  /** One line more adds what it says. */
  lemma OneMore(ms: seq<Meaning>, said: seq<Meaning>, sh: Shape, m: Meaning)
    requires Outline(ms + said) == Some(sh)
    ensures Outline(ms + (said + [m])) == Extend(sh, m)
  {
    assert ms + (said + [m]) == (ms + said) + [m];
    OutlineSnoc(ms + said, m);
  }

  lemma {:induction false} KeysOutlined(ms: seq<Meaning>, entries: seq<Entry>, keys: seq<(string, string)>)
    requires Outline(ms) == Some(Shape(entries, true))
    requires forall e :: e in InnerEntries(keys) ==> Sayable(e)
    ensures Outline(ms + Said(KeyLines(keys))) == Some(Shape(entries + InnerEntries(keys), true))
  {
    if keys == [] {
      assert ms + Said(KeyLines(keys)) == ms && entries + InnerEntries(keys) == entries;
    } else {
      var n := |keys| - 1;
      var (k, v) := keys[n];
      assert keys == keys[..n] + [(k, v)];
      KeysSnoc(keys[..n], k, v);
      assert Sayable(InnerEntries(keys)[n]);
      KeysOutlined(ms, entries, keys[..n]);
      SaidConcat(KeyLines(keys[..n]), [DirectiveLine(k, v)]);
      SaidDirective(k, v);
      OneMore(ms, Said(KeyLines(keys[..n])), Shape(entries + InnerEntries(keys[..n]), true), Directive(k, v));
      assert entries + InnerEntries(keys) == entries + InnerEntries(keys[..n]) + [Inner(k, v)];
    }
  }

  lemma SaidBlock(keys: seq<(string, string)>)
    ensures Said(ItemLines(Redis(keys))) == [Open(REDIS)] + Said(KeyLines(keys)) + [Close]
  {
    SaidEnds();
    SaidConcat(["redis {"], KeyLines(keys));
    SaidConcat(["redis {"] + KeyLines(keys), ["}"]);
  }

  lemma SaidEnds()
    ensures Said(["redis {"]) == [Open(REDIS)] && Said(["}"]) == [Close]
  {
    BlockReads();
  }

  lemma BlockOutlined(ms: seq<Meaning>, entries: seq<Entry>, inner: seq<Meaning>, keys: seq<Entry>)
    requires Outline(ms + [Open(REDIS)] + inner) == Some(Shape(entries + [Block] + keys, true))
    ensures Outline(ms + ([Open(REDIS)] + inner + [Close])) == Some(Shape(entries + ([Block] + keys), false))
  {
    OutlineSnoc(ms + [Open(REDIS)] + inner, Close);
    assert ms + ([Open(REDIS)] + inner + [Close]) == ms + [Open(REDIS)] + inner + [Close];
    assert entries + ([Block] + keys) == entries + [Block] + keys;
  }

  lemma ItemOutlined(ms: seq<Meaning>, entries: seq<Entry>, i: Item)
    requires Outline(ms) == Some(Shape(entries, false))
    requires forall e :: e in ItemEntries(i) ==> Sayable(e)
    ensures Outline(ms + Said(ItemLines(i))) == Some(Shape(entries + ItemEntries(i), false))
  {
    match i
    case Setting(key, value) =>
      assert Sayable(ItemEntries(i)[0]);
      SaidDirective(key, value);
      OutlineSnoc(ms, Directive(key, value));
    case Redis(keys) =>
      forall e | e in InnerEntries(keys) ensures Sayable(e) {
        assert e in ItemEntries(i);
      }
      OutlineSnoc(ms, Open(REDIS));
      KeysOutlined(ms + [Open(REDIS)], entries + [Block], keys);
      BlockOutlined(ms, entries, Said(KeyLines(keys)), InnerEntries(keys));
      SaidBlock(keys);
  }

  /** Printing is outlined as what was printed, with every block closed. */
  lemma {:induction false} PrintedOutlined(items: seq<Item>)
    requires forall e :: e in AllEntries(items) ==> Sayable(e)
    ensures Outline(Said(Printed(items))) == Some(Shape(AllEntries(items), false))
  {
    if items != [] {
      var n := |items| - 1;
      var before, last := AllEntries(items[..n]), ItemEntries(items[n]);
      assert AllEntries(items) == before + last;
      forall e | e in before || e in last ensures Sayable(e) {
        assert e in AllEntries(items);
      }
      PrintedOutlined(items[..n]);
      ItemOutlined(Said(Printed(items[..n])), before, items[n]);
      SaidConcat(Printed(items[..n]), ItemLines(items[n]));
    }
  }

  lemma DistinctConcat(a: seq<Entry>, b: seq<Entry>)
    requires Distinct(a) && Distinct(b) && Ids(a) !! Ids(b)
    ensures Distinct(a + b) && Ids(a + b) == Ids(a) + Ids(b)
  {
    var all := a + b;
    forall e ensures e in all <==> e in a || e in b {
    }
    forall j, k | 0 <= j < k < |all| ensures Id(all[j]) != Id(all[k]) {
      assert all[j] in all && all[k] in all;
      if j < |a| <= k {
        assert all[j] == a[j] && all[k] == b[k - |a|];
        assert Id(a[j]) in Ids(a) && Id(b[k - |a|]) in Ids(b);
      } else if k < |a| {
        assert all[j] == a[j] && all[k] == a[k];
      } else {
        assert all[j] == b[j - |a|] && all[k] == b[k - |a|];
      }
    }
  }

  lemma OneIsDistinct(present: bool, e: Entry)
    ensures Distinct(Opt(present, e)) && Ids(Opt(present, e)) == if present then {Id(e)} else {}
  {
  }

  lemma KeysApart()
    ensures QUEUE_MAX != QUEUE_FULL && QUEUE_MAX != QUEUE_EXPAND && QUEUE_FULL != QUEUE_EXPAND
    ensures InnerId(URL) != InnerId(INTERNAL) && REDIS != InnerId(URL) && REDIS != InnerId(INTERNAL)
    ensures {QUEUE_MAX, QUEUE_FULL, QUEUE_EXPAND} !! {REDIS, InnerId(URL), InnerId(INTERNAL)}
  {
    assert InnerId(URL)[0] == 'r' && InnerId(INTERNAL)[0] == 'r' && REDIS[0] == 'r';
    assert QUEUE_MAX[0] == QUEUE_FULL[0] == QUEUE_EXPAND[0] == 'q';
    assert |InnerId(URL)| != |InnerId(INTERNAL)| && |REDIS| < |InnerId(URL)|;
    assert QUEUE_MAX[6] != QUEUE_FULL[6] && QUEUE_MAX[6] != QUEUE_EXPAND[6] && QUEUE_FULL[6] != QUEUE_EXPAND[6];
  }

  lemma TopsDistinct(f: QueueFile)
    ensures Distinct(TopEntries(f))
    ensures Ids(TopEntries(f)) == (if f.max.Some? then {QUEUE_MAX} else {})
      + (if f.full != "" then {QUEUE_FULL} else {}) + (if f.expand != "" then {QUEUE_EXPAND} else {})
  {
    var max := Opt(f.max.Some?, Top(QUEUE_MAX, MaxText(f)));
    KeysApart();
    OneIsDistinct(f.max.Some?, Top(QUEUE_MAX, MaxText(f)));
    OneIsDistinct(f.full != "", Top(QUEUE_FULL, f.full));
    OneIsDistinct(f.expand != "", Top(QUEUE_EXPAND, f.expand));
    DistinctConcat(max, Opt(f.full != "", Top(QUEUE_FULL, f.full)));
    DistinctConcat(max + Opt(f.full != "", Top(QUEUE_FULL, f.full)), Opt(f.expand != "", Top(QUEUE_EXPAND, f.expand)));
  }

  lemma InnersDistinct(f: QueueFile)
    ensures Distinct(BlockEntries(f))
    ensures Ids(BlockEntries(f)) == (if f.redisUrl != "" || f.redisInternal != "" then {REDIS} else {})
      + (if f.redisUrl != "" then {InnerId(URL)} else {}) + (if f.redisInternal != "" then {InnerId(INTERNAL)} else {})
  {
    var block := Opt(f.redisUrl != "" || f.redisInternal != "", Block);
    KeysApart();
    OneIsDistinct(f.redisUrl != "" || f.redisInternal != "", Block);
    OneIsDistinct(f.redisUrl != "", Inner(URL, f.redisUrl));
    OneIsDistinct(f.redisInternal != "", Inner(INTERNAL, f.redisInternal));
    DistinctConcat(block, Opt(f.redisUrl != "", Inner(URL, f.redisUrl)));
    DistinctConcat(block + Opt(f.redisUrl != "", Inner(URL, f.redisUrl)),
                   Opt(f.redisInternal != "", Inner(INTERNAL, f.redisInternal)));
  }

  predicate Says(url: string -> bool, f: QueueFile, e: Entry) {
    Sayable(e) && Good(url, e) && Shows(f, e)
  }

  lemma NamesAndWords()
    ensures IsConfName(QUEUE_MAX) && IsConfName(QUEUE_FULL) && IsConfName(QUEUE_EXPAND)
    ensures IsConfName(URL) && IsConfName(INTERNAL)
    ensures Plain("drop") && Plain("wait") && Plain("off") && Plain("ask")
  {
  }

  lemma TopSays(url: string -> bool, f: QueueFile, e: Entry)
    requires Writable(url, f) && e in TopEntries(f)
    ensures Says(url, f, e)
  {
    NamesAndWords();
    if e == Top(QUEUE_MAX, MaxText(f)) && f.max.Some? {
      DecimalReadsPlainly(f.max.value);
    } else if e == Top(QUEUE_FULL, f.full) && f.full != "" {
    } else {
      assert e == Top(QUEUE_EXPAND, f.expand) && f.expand != "";
    }
  }

  lemma InnerSays(url: string -> bool, f: QueueFile, e: Entry)
    requires Writable(url, f) && e in BlockEntries(f)
    ensures Says(url, f, e)
  {
    NamesAndWords();
  }

  lemma EntriesSay(url: string -> bool, f: QueueFile)
    requires Writable(url, f)
    ensures forall e :: e in EntriesOf(f) ==> Says(url, f, e)
  {
    forall e | e in EntriesOf(f) ensures Says(url, f, e) {
      if e in TopEntries(f) {
        TopSays(url, f, e);
      } else {
        InnerSays(url, f, e);
      }
    }
  }

  lemma ApartSets(a: set<string>, b: set<string>)
    requires a <= {QUEUE_MAX, QUEUE_FULL, QUEUE_EXPAND} && b <= {REDIS, InnerId(URL), InnerId(INTERNAL)}
    ensures a !! b
  {
    KeysApart();
  }

  lemma EntriesDistinct(f: QueueFile)
    ensures Distinct(EntriesOf(f)) && Ids(EntriesOf(f)) == Ids(TopEntries(f)) + Ids(BlockEntries(f))
  {
    TopsDistinct(f);
    InnersDistinct(f);
    ApartSets(Ids(TopEntries(f)), Ids(BlockEntries(f)));
    DistinctConcat(TopEntries(f), BlockEntries(f));
  }

  /** The entries of writable settings can be said, are good, repeat nothing, and say exactly these settings. */
  lemma EntriesSaySettings(url: string -> bool, f: QueueFile)
    requires Writable(url, f)
    ensures forall e :: e in EntriesOf(f) ==> Says(url, f, e)
    ensures AllGood(url, EntriesOf(f)) && Distinct(EntriesOf(f)) && Reflects(f, EntriesOf(f))
  {
    EntriesSay(url, f);
    EntriesDistinct(f);
    TopsDistinct(f);
    InnersDistinct(f);
    SaysReflects(url, f, EntriesOf(f));
  }

  lemma SaysReflects(url: string -> bool, f: QueueFile, entries: seq<Entry>)
    requires forall e :: e in entries ==> Says(url, f, e)
    requires f.max.Some? ==> QUEUE_MAX in Ids(entries)
    requires f.full != "" ==> QUEUE_FULL in Ids(entries)
    requires f.expand != "" ==> QUEUE_EXPAND in Ids(entries)
    requires f.redisUrl != "" ==> InnerId(URL) in Ids(entries)
    requires f.redisInternal != "" ==> InnerId(INTERNAL) in Ids(entries)
    ensures AllGood(url, entries) && Reflects(f, entries)
  {
    forall k | 0 <= k < |entries| ensures Good(url, entries[k]) {
      assert Says(url, f, entries[k]);
    }
  }

  /** Writing settings down and reading them gives them back: in any order of the directives and of the keys of the
      block, with any indentation, comments and blank lines. */
  lemma PrintedSettingsReadBack(url: string -> bool, f: QueueFile, items: seq<Item>, rows: seq<Row>)
    requires Writable(url, f)
    requires Permuted(AllEntries(items), EntriesOf(f))
    requires Codes(rows) == Printed(items) && forall r :: r in rows ==> Tidy(r)
    ensures ParseOf(url, JsonPointer.Join(WrittenAll(rows), '\n')) == Parsed(f)
  {
    var src := JsonPointer.Join(WrittenAll(rows), '\n');
    EntriesSaySettings(url, f);
    PermutedAlike(url, AllEntries(items), EntriesOf(f));
    PrintedOutlined(items);
    RowsSayCodes(rows);
    NoiseSaysNothing(Meanings(WrittenAll(rows)));
    SourceIsRows(rows);
    AcceptsExactly(url, src);
    ReflectsOnce(url, ParseOf(url, src).file, AllEntries(items), f, EntriesOf(f));
  }

  lemma SourceIsRows(rows: seq<Row>)
    requires forall r :: r in rows ==> Tidy(r)
    ensures Outline(LinesOf(JsonPointer.Join(WrittenAll(rows), '\n'))) == Outline(Meanings(WrittenAll(rows)))
  {
    var lines := WrittenAll(rows);
    if rows == [] {
      assert MeaningOf("") == Noise;
      assert LinesOf("") == [] + [Noise];
      OutlineSnoc([], Noise);
      assert Meanings(lines) == [];
    } else {
      forall k | 0 <= k < |lines| ensures '\n' !in lines[k] {
        RowIsOneLine(rows[k]);
      }
      JsonPointer.SplitInvertsJoin(lines, '\n');
    }
  }

  // ------------------------------------------------ one way to print

  function OptItem(present: bool, i: Item): seq<Item> { if present then [i] else [] }

  function OptKey(value: string, key: string): seq<(string, string)> { if value != "" then [(key, value)] else [] }

  function KeysOf(f: QueueFile): seq<(string, string)> {
    OptKey(f.redisUrl, URL) + OptKey(f.redisInternal, INTERNAL)
  }

  function TopItems(f: QueueFile): seq<Item> {
    OptItem(f.max.Some?, Setting(QUEUE_MAX, MaxText(f)))
    + OptItem(f.full != "", Setting(QUEUE_FULL, f.full)) + OptItem(f.expand != "", Setting(QUEUE_EXPAND, f.expand))
  }

  function ItemsOf(f: QueueFile): seq<Item> {
    TopItems(f) + OptItem(f.redisUrl != "" || f.redisInternal != "", Redis(KeysOf(f)))
  }

  function Print(f: QueueFile): string {
    JsonPointer.Join(Printed(ItemsOf(f)), '\n')
  }

  lemma AddItem(items: seq<Item>, present: bool, i: Item)
    ensures AllEntries(items + OptItem(present, i)) == AllEntries(items) + if present then ItemEntries(i) else []
  {
    if present {
      assert (items + [i])[..|items|] == items;
    } else {
      assert items + OptItem(present, i) == items;
    }
  }

  lemma KeysSayBlock(f: QueueFile)
    ensures (if f.redisUrl != "" || f.redisInternal != "" then ItemEntries(Redis(KeysOf(f))) else []) == BlockEntries(f)
  {
    assert InnerEntries(KeysOf(f))
        == Opt(f.redisUrl != "", Inner(URL, f.redisUrl)) + Opt(f.redisInternal != "", Inner(INTERNAL, f.redisInternal));
  }

  lemma {:induction false} AddSetting(items: seq<Item>, entries: seq<Entry>, present: bool, key: string, value: string)
    requires AllEntries(items) == entries
    ensures AllEntries(items + OptItem(present, Setting(key, value))) == entries + Opt(present, Top(key, value))
  {
    AddItem(items, present, Setting(key, value));
  }

  lemma TopItemsSay(f: QueueFile)
    ensures AllEntries(TopItems(f)) == TopEntries(f)
  {
    var a, x := OptItem(f.max.Some?, Setting(QUEUE_MAX, MaxText(f))), Opt(f.max.Some?, Top(QUEUE_MAX, MaxText(f)));
    var b, y := a + OptItem(f.full != "", Setting(QUEUE_FULL, f.full)), x + Opt(f.full != "", Top(QUEUE_FULL, f.full));
    assert [] + a == a && [] + x == x;
    AddSetting([], [], f.max.Some?, QUEUE_MAX, MaxText(f));
    AddSetting(a, x, f.full != "", QUEUE_FULL, f.full);
    AddSetting(b, y, f.expand != "", QUEUE_EXPAND, f.expand);
  }

  lemma ItemsSaySettings(f: QueueFile)
    ensures AllEntries(ItemsOf(f)) == EntriesOf(f)
  {
    TopItemsSay(f);
    AddItem(TopItems(f), f.redisUrl != "" || f.redisInternal != "", Redis(KeysOf(f)));
    KeysSayBlock(f);
  }

  /** A line that stands for itself. */
  predicate IsCode(line: string) {
    line != "" && Tight(line)
  }

  lemma ItemLinesAreCodes(i: Item)
    requires forall e :: e in ItemEntries(i) ==> Sayable(e)
    ensures forall k :: 0 <= k < |ItemLines(i)| ==> IsCode(ItemLines(i)[k])
  {
    BlockReads();
    if i.Setting? {
      assert Sayable(ItemEntries(i)[0]);
      DirectiveReads(i.key, i.value);
    } else {
      forall k | 0 <= k < |i.keys| ensures IsCode(KeyLines(i.keys)[k]) {
        assert InnerEntries(i.keys)[k] in ItemEntries(i);
        DirectiveReads(i.keys[k].0, i.keys[k].1);
      }
    }
  }

  lemma {:induction false} PrintedAreCodes(items: seq<Item>)
    requires forall e :: e in AllEntries(items) ==> Sayable(e)
    ensures forall k :: 0 <= k < |Printed(items)| ==> IsCode(Printed(items)[k])
  {
    if items != [] {
      var n := |items| - 1;
      forall e | e in AllEntries(items[..n]) || e in ItemEntries(items[n]) ensures Sayable(e) {
        assert e in AllEntries(items);
      }
      PrintedAreCodes(items[..n]);
      ItemLinesAreCodes(items[n]);
    }
  }

  function Bare(codes: seq<string>): seq<Row> {
    seq(|codes|, k requires 0 <= k < |codes| => Row("", codes[k], "", None))
  }

  lemma {:induction false} BareRows(codes: seq<string>)
    requires forall k :: 0 <= k < |codes| ==> IsCode(codes[k])
    ensures Codes(Bare(codes)) == codes && WrittenAll(Bare(codes)) == codes
    ensures forall r :: r in Bare(codes) ==> Tidy(r)
  {
    if codes != [] {
      var n := |codes| - 1;
      BareRows(codes[..n]);
      assert Bare(codes)[..n] == Bare(codes[..n]);
      assert codes == codes[..n] + [codes[n]];
    }
    forall k | 0 <= k < |codes| ensures Written(Bare(codes)[k]) == codes[k] {
    }
  }

  /** Parsing undoes printing, for every settings that can be written. */
  lemma ParseInvertsPrint(url: string -> bool, f: QueueFile)
    requires Writable(url, f)
    ensures ParseOf(url, Print(f)) == Parsed(f)
  {
    EntriesSaySettings(url, f);
    ItemsSaySettings(f);
    PrintedAreCodes(ItemsOf(f));
    BareRows(Printed(ItemsOf(f)));
    PrintedSettingsReadBack(url, f, ItemsOf(f), Bare(Printed(ItemsOf(f))));
  }
}
