/** The configuration file of the queue: one directive a line, comments, and one block. */
module QueueConf {
  import opened Basics
  import opened Text
  import JsonPointer

  const QUEUE_MAX := "queue_max"
  const QUEUE_FULL := "queue_full"
  const QUEUE_EXPAND := "queue_expand"
  const REDIS := "redis"
  const URL := "url"
  const INTERNAL := "internal"

  datatype QueueFile = QueueFile(max: Option<int>, full: string, expand: string, redisUrl: string, redisInternal: string)

  const EMPTY_FILE := QueueFile(None, "", "", "", "")

  datatype Fault =
    | UnexpectedClose | UnknownBlock | SetTwice | NoSemicolon | EmptyDirective | NoValue | BadName | NotOneValue
    | BadValue | UnknownKey | NotClosed

  datatype Parsed = Parsed(file: QueueFile) | Rejected(line: nat, why: Fault)

  datatype Try<+T> = Done(value: T) | Fail(why: Fault)

  // ------------------------------------------------ text

  function BeforeHash(line: string): string {
    if line == "" || line[0] == '#' then "" else [line[0]] + BeforeHash(line[1..])
  }

  function ConfText(line: string): string {
    Trim(BeforeHash(line))
  }

  function RequireSemicolon(text: string): Try<string> {
    if text == "" || text[|text| - 1] != ';' then Fail(NoSemicolon) else Done(Trim(text[..|text| - 1]))
  }

  /** What stands before and after the first space. */
  function CutSpace(s: string): Option<(string, string)> {
    if s == "" then None
    else if s[0] == ' ' then Some(("", s[1..]))
    else match CutSpace(s[1..])
      case None => None
      case Some((before, after)) => Some(([s[0]] + before, after))
  }

  predicate NameChar(c: char) {
    c == '_' || 'a' <= c <= 'z' || 'A' <= c <= 'Z' || '0' <= c <= '9'
  }

  predicate IsConfName(s: string) {
    s != "" && forall k :: 0 <= k < |s| ==> NameChar(s[k])
  }

  function SplitDirective(stmt: string): Try<(string, string)> {
    var s := Trim(stmt);
    if s == "" then Fail(EmptyDirective)
    else match CutSpace(s)
      case None => Fail(NoValue)
      case Some((key, rest)) =>
        if !IsConfName(key) then Fail(BadName)
        else
          var value := Trim(rest);
          if value == "" || ' ' in value || '\t' in value then Fail(NotOneValue) else Done((key, value))
  }

  // ------------------------------------------------ lines

  datatype Meaning = Noise | Close | Open(head: string) | Directive(key: string, value: string) | Bad(why: Fault)

  function Statement(text: string): Meaning {
    match RequireSemicolon(text)
    case Fail(why) => Bad(why)
    case Done(stmt) =>
      match SplitDirective(stmt)
      case Fail(why) => Bad(why)
      case Done((key, value)) => Directive(key, value)
  }

  /** What a line says, wherever it stands. */
  function MeaningOf(line: string): Meaning {
    TextMeaning(ConfText(line))
  }

  function TextMeaning(text: string): Meaning {
    if text == "" then Noise
    else if text == "}" then Close
    else if text[|text| - 1] == '{' then Open(Trim(text[..|text| - 1]))
    else Statement(text)
  }

  function Meanings(lines: seq<string>): (ms: seq<Meaning>)
    ensures |ms| == |lines| && forall k :: 0 <= k < |lines| ==> ms[k] == MeaningOf(lines[k])
  {
    seq(|lines|, k requires 0 <= k < |lines| => MeaningOf(lines[k]))
  }

  // ------------------------------------------------ the parser as a fold

  function SetTop(file: QueueFile, key: string, value: string): Try<QueueFile> {
    if key == QUEUE_MAX then
      var v := JsonPointer.Atoi(value);
      if v.None? || v.value < 1 then Fail(BadValue) else Done(file.(max := v))
    else if key == QUEUE_FULL then
      if value == "drop" || value == "wait" then Done(file.(full := value)) else Fail(BadValue)
    else if key == QUEUE_EXPAND then
      if value == "off" || value == "ask" then Done(file.(expand := value)) else Fail(BadValue)
    else Fail(UnknownKey)
  }

  function SetInner(url: string -> bool, file: QueueFile, key: string, value: string): Try<QueueFile> {
    if key != URL && key != INTERNAL then Fail(UnknownKey)
    else if !url(value) then Fail(BadValue)
    else if key == URL then Done(file.(redisUrl := value))
    else Done(file.(redisInternal := value))
  }

  datatype State = State(file: QueueFile, seen: set<string>, block: string, openedAt: nat)

  datatype Progress = Going(s: State) | Failed(line: nat, why: Fault)

  const START := State(EMPTY_FILE, {}, "", 0)

  function InnerId(key: string): string { "redis." + key }

  function Took(s: State, n: nat, id: string, file: Try<QueueFile>): Progress {
    if id in s.seen then Failed(n, SetTwice)
    else match file
      case Fail(why) => Failed(n, why)
      case Done(f) => Going(s.(file := f, seen := s.seen + {id}))
  }

  /** One line, numbered n. */
  function Step(url: string -> bool, s: State, n: nat, m: Meaning): Progress {
    match m
    case Noise => Going(s)
    case Bad(why) => Failed(n, why)
    case Close => if s.block != "" then Going(s.(block := "")) else Failed(n, UnexpectedClose)
    case Open(head) =>
      if s.block != "" then Failed(n, NoSemicolon)
      else if head != REDIS then Failed(n, UnknownBlock)
      else if head in s.seen then Failed(n, SetTwice)
      else Going(s.(seen := s.seen + {head}, block := head, openedAt := n))
    case Directive(key, value) =>
      if s.block != "" then Took(s, n, InnerId(key), SetInner(url, s.file, key, value))
      else Took(s, n, key, SetTop(s.file, key, value))
  }

  function Fold(url: string -> bool, ms: seq<Meaning>): Progress {
    if ms == [] then Going(START)
    else match Fold(url, ms[..|ms| - 1])
      case Failed(line, why) => Failed(line, why)
      case Going(s) => Step(url, s, |ms|, ms[|ms| - 1])
  }

  function Finish(p: Progress): Parsed {
    match p
    case Failed(line, why) => Rejected(line, why)
    case Going(s) => if s.block != "" then Rejected(s.openedAt, NotClosed) else Parsed(s.file)
  }

  function ParseOf(url: string -> bool, src: string): Parsed {
    Finish(Fold(url, Meanings(JsonPointer.Split(src, '\n'))))
  }

  /** After a bad line the rest is not looked at. */
  lemma {:induction false} FailsForGood(url: string -> bool, ms: seq<Meaning>, k: nat)
    requires k <= |ms|
    ensures Fold(url, ms[..k]).Failed? ==> Fold(url, ms) == Fold(url, ms[..k])
    decreases |ms| - k
  {
    if k == |ms| {
      assert ms[..k] == ms;
    } else {
      assert ms[..k + 1][..k] == ms[..k];
      FailsForGood(url, ms, k + 1);
    }
  }

  // ------------------------------------------------ the parser as it runs

  /** A statement inside the block. */
  function InnerStep(url: string -> bool, s: State, n: nat, text: string): Progress {
    match Statement(text)
    case Directive(key, value) => Took(s, n, InnerId(key), SetInner(url, s.file, key, value))
    case Bad(why) => Failed(n, why)
    case _ => Going(s)
  }

  /** A line inside the block that does not close it; whatever it is, it is read as a statement. */
  method ParseRedisKey(url: string -> bool, s: State, n: nat, text: string) returns (p: Progress)
    ensures p == InnerStep(url, s, n, text)
    ensures s.block != "" && text != "" && text != "}" ==> p == Step(url, s, n, TextMeaning(text))
  {
    var stmt := RequireSemicolon(text);
    if stmt.Fail? {
      return Failed(n, stmt.why);
    }
    var split := SplitDirective(stmt.value);
    if split.Fail? {
      return Failed(n, split.why);
    }
    var (key, value) := split.value;
    var id := InnerId(key);
    if id in s.seen {
      return Failed(n, SetTwice);
    }
    var seen := s.seen + {id};
    if key != URL && key != INTERNAL {
      return Failed(n, UnknownKey);
    }
    if !url(value) {
      return Failed(n, BadValue);
    }
    var file := if key == URL then s.file.(redisUrl := value) else s.file.(redisInternal := value);
    return Going(s.(file := file, seen := seen));
  }

  /** A line outside the block that does not open it. */
  method ParseDirective(url: string -> bool, s: State, n: nat, text: string) returns (p: Progress)
    requires s.block == "" && text != "" && text != "}" && text[|text| - 1] != '{'
    ensures p == Step(url, s, n, TextMeaning(text))
  {
    var stmt := RequireSemicolon(text);
    if stmt.Fail? {
      return Failed(n, stmt.why);
    }
    var split := SplitDirective(stmt.value);
    if split.Fail? {
      return Failed(n, split.why);
    }
    var (key, value) := split.value;
    if key in s.seen {
      return Failed(n, SetTwice);
    }
    var file := s.file;
    if key == QUEUE_MAX {
      var v := JsonPointer.Atoi(value);
      if v.None? || v.value < 1 {
        return Failed(n, BadValue);
      }
      file := file.(max := v);
    } else if key == QUEUE_FULL {
      if value != "drop" && value != "wait" {
        return Failed(n, BadValue);
      }
      file := file.(full := value);
    } else if key == QUEUE_EXPAND {
      if value != "off" && value != "ask" {
        return Failed(n, BadValue);
      }
      file := file.(expand := value);
    } else {
      return Failed(n, UnknownKey);
    }
    return Going(s.(file := file, seen := s.seen + {key}));
  }

  /** One line, cut to its text. */
  method ParseText(url: string -> bool, s: State, n: nat, text: string) returns (p: Progress)
    ensures p == Step(url, s, n, TextMeaning(text))
  {
    if text == "" {
      return Going(s);
    }
    if s.block != "" {
      if text == "}" {
        return Going(s.(block := ""));
      }
      p := ParseRedisKey(url, s, n, text);
      return;
    }
    if text == "}" {
      return Failed(n, UnexpectedClose);
    }
    if text[|text| - 1] == '{' {
      var head := Trim(text[..|text| - 1]);
      if head != REDIS {
        return Failed(n, UnknownBlock);
      }
      if head in s.seen {
        return Failed(n, SetTwice);
      }
      return Going(s.(seen := s.seen + {head}, block := head, openedAt := n));
    }
    p := ParseDirective(url, s, n, text);
  }

  method ParseQueueFile(url: string -> bool, src: string) returns (r: Parsed)
    ensures r == ParseOf(url, src)
  {
    var lines := JsonPointer.Split(src, '\n');
    ghost var ms := Meanings(lines);
    var s := START;
    for i := 0 to |lines|
      invariant Fold(url, ms[..i]) == Going(s)
    {
      assert ms[..i + 1][..i] == ms[..i];
      FailsForGood(url, ms, i + 1);
      var p := ParseText(url, s, i + 1, ConfText(lines[i]));
      if p.Failed? {
        return Rejected(p.line, p.why);
      }
      s := p.s;
    }
    assert ms[..|lines|] == ms;
    if s.block != "" {
      return Rejected(s.openedAt, NotClosed);
    }
    return Parsed(s.file);
  }
}
