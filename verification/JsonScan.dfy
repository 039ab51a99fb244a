/**
 The depth-bounded scan of a JSON document, over the tokens of a streaming decoder.

 The decoder itself is modelled by what it guarantees: it matches delimiters and alternates keys
 and values, so the tokens it has delivered are always the serialisation of some finished values
 and the opened part of one more.
 */
module JsonScan {
  import opened Basics
  import JsonPointer

  /** What the decoder delivers for a scalar; a number keeps its literal. */
  datatype Atom = NullAtom | BoolAtom(b: bool) | NumAtom(text: string) | StrAtom(text: string)

  /** An element is a scalar, an array, or an object with its keys in the order they came. */
  datatype Json = Scalar(atom: Atom) | Arr(elems: seq<Json>) | Obj(members: seq<Member>)

  datatype Member = Member(key: string, value: Json)

  datatype Token = OpenArr | CloseArr | OpenObj | CloseObj | Value(atom: Atom)

  /** How the stream goes on after its last token. */
  datatype Tail = Eof | Broken

  datatype Outcome = Accepted | TooDeep | Trailing | Unfinished | Empty | Malformed

  function Tokens(v: Json): seq<Token>
    decreases v, 0
  {
    match v
    case Scalar(atom) => [Value(atom)]
    case Arr(elems) => [OpenArr] + ElemTokens(elems) + [CloseArr]
    case Obj(members) => [OpenObj] + MemberTokens(members) + [CloseObj]
  }

  function ElemTokens(elems: seq<Json>): seq<Token>
    decreases elems, 1
  {
    if elems == [] then [] else ElemTokens(elems[..|elems| - 1]) + Tokens(elems[|elems| - 1])
  }

  function MemberTokens(members: seq<Member>): seq<Token>
    decreases members, 1
  {
    if members == [] then []
    else MemberTokens(members[..|members| - 1])
         + [Value(StrAtom(members[|members| - 1].key))] + Tokens(members[|members| - 1].value)
  }

  function Max(a: int, b: int): int { if a > b then a else b }

  /** Nesting depth: a scalar has none. */
  function Depth(v: Json): nat
    decreases v, 0
  {
    match v
    case Scalar(_) => 0
    case Arr(elems) => 1 + ElemDepth(elems)
    case Obj(members) => 1 + MemberDepth(members)
  }

  function ElemDepth(elems: seq<Json>): nat
    decreases elems, 1
  {
    if elems == [] then 0 else Max(ElemDepth(elems[..|elems| - 1]), Depth(elems[|elems| - 1]))
  }

  function MemberDepth(members: seq<Member>): nat
    decreases members, 1
  {
    if members == [] then 0
    else Max(MemberDepth(members[..|members| - 1]), Depth(members[|members| - 1].value))
  }

  // ------------------------------------------------ the decoder

  /** An opened array or object with what it has so far. */
  datatype Frame =
    | InArr(elems: seq<Json>)
    | BeforeKey(members: seq<Member>)
    | AfterKey(members: seq<Member>, key: string)

  /** Finished values, and the frames opened but not closed, outermost first. */
  datatype Decoder = Decoder(roots: seq<Json>, frames: seq<Frame>)

  function Top(d: Decoder): Frame
    requires d.frames != []
  {
    d.frames[|d.frames| - 1]
  }

  /** A value is complete: it goes to the innermost frame, or to the finished values. */
  function Complete(d: Decoder, v: Json): Option<Decoder> {
    if d.frames == [] then Some(d.(roots := d.roots + [v]))
    else
      var n := |d.frames| - 1;
      match d.frames[n]
      case InArr(elems) => Some(d.(frames := d.frames[n := InArr(elems + [v])]))
      case AfterKey(members, key) => Some(d.(frames := d.frames[n := BeforeKey(members + [Member(key, v)])]))
      case BeforeKey(_) => None
  }

  /** A value may start here. */
  predicate TakesValue(d: Decoder) {
    d.frames == [] || !Top(d).BeforeKey?
  }

  /** One token; None when the decoder reports an error instead of delivering it. */
  function Feed(d: Decoder, tok: Token): Option<Decoder> {
    match tok
    case OpenArr => if TakesValue(d) then Some(d.(frames := d.frames + [InArr([])])) else None
    case OpenObj => if TakesValue(d) then Some(d.(frames := d.frames + [BeforeKey([])])) else None
    case CloseArr =>
      if d.frames != [] && Top(d).InArr?
      then Complete(d.(frames := d.frames[..|d.frames| - 1]), Arr(Top(d).elems)) else None
    case CloseObj =>
      if d.frames != [] && Top(d).BeforeKey?
      then Complete(d.(frames := d.frames[..|d.frames| - 1]), Obj(Top(d).members)) else None
    case Value(atom) =>
      if d.frames != [] && Top(d).BeforeKey? then
        if atom.StrAtom? then Some(d.(frames := d.frames[|d.frames| - 1 := AfterKey(Top(d).members, atom.text)])) else None
      else Complete(d, Scalar(atom))
  }

  function FeedAll(d: Decoder, toks: seq<Token>): Option<Decoder> {
    if toks == [] then Some(d)
    else match FeedAll(d, toks[..|toks| - 1])
      case None => None
      case Some(d') => Feed(d', toks[|toks| - 1])
  }

  const START := Decoder([], [])

  /** The decoder delivers these tokens. */
  predicate Delivered(toks: seq<Token>) {
    FeedAll(START, toks).Some?
  }

  /** The decoder refuses to decode a value that nests deeper than this; reading it token by token has no such bound. */
  const MAX_NESTING := 10000

  /** `Decode` reads the first value of the stream. */
  function Decode(toks: seq<Token>): Option<Json> {
    match FeedAll(START, toks)
    case None => None
    case Some(d) => if d.roots == [] || Depth(d.roots[0]) > MAX_NESTING then None else Some(d.roots[0])
  }

  // ------------------------------------------------ the document

  function AtomDoc(atom: Atom): JsonPointer.Doc {
    match atom
    case NullAtom => JsonPointer.Null
    case BoolAtom(b) => JsonPointer.Bool(b)
    case NumAtom(text) => JsonPointer.Num(text)
    case StrAtom(text) => JsonPointer.Str(text)
  }

  /** The document a value is decoded to: of members of one name the last one stays. */
  function DocOf(v: Json): JsonPointer.Doc
    decreases v, 0
  {
    match v
    case Scalar(atom) => AtomDoc(atom)
    case Arr(elems) => JsonPointer.List(DocsOf(elems))
    case Obj(members) => JsonPointer.Dict(DictOf(members))
  }

  function DocsOf(elems: seq<Json>): seq<JsonPointer.Doc>
    decreases elems, 1
  {
    if elems == [] then [] else DocsOf(elems[..|elems| - 1]) + [DocOf(elems[|elems| - 1])]
  }

  function DictOf(members: seq<Member>): map<string, JsonPointer.Doc>
    decreases members, 1
  {
    if members == [] then map[]
    else DictOf(members[..|members| - 1])[members[|members| - 1].key := DocOf(members[|members| - 1].value)]
  }

  // ------------------------------------------------ the scan

  /** The scan of a token stream; `blank` says that the body is only white space. */
  method Scan(toks: seq<Token>, tail: Tail, blank: bool, maxDepth: int) returns (out: Outcome)
    ensures out == ScanOutcome(toks, tail, blank, maxDepth)
  {
    var depth := 0;
    var done := false;
    for i := 0 to |toks|
      invariant ScanState(toks[..i], maxDepth) == Scanning(depth, done)
    {
      assert toks[..i + 1][..i] == toks[..i];
      StopsEarly(toks, i + 1, maxDepth);
      if done {
        return Trailing;
      }
      match toks[i] {
        case OpenArr =>
          depth := depth + 1;
          if maxDepth > 0 && depth > maxDepth {
            return TooDeep;
          }
        case OpenObj =>
          depth := depth + 1;
          if maxDepth > 0 && depth > maxDepth {
            return TooDeep;
          }
        case CloseArr =>
          depth := depth - 1;
          if depth == 0 {
            done := true;
          }
        case CloseObj =>
          depth := depth - 1;
          if depth == 0 {
            done := true;
          }
        case Value(_) =>
          if depth == 0 {
            done := true;
          }
      }
    }
    assert toks[..|toks|] == toks;
    if tail.Broken? {
      return Malformed;
    }
    if depth != 0 {
      return Unfinished;
    }
    if !done && !blank {
      return Empty;
    }
    return Accepted;
  }

  datatype Progress = Scanning(depth: int, done: bool) | Stopped(out: Outcome)

  function ScanToken(depth: int, done: bool, tok: Token, maxDepth: int): Progress {
    if done then Stopped(Trailing)
    else match tok
      case Value(_) => Scanning(depth, depth == 0)
      case CloseArr => Scanning(depth - 1, depth == 1)
      case CloseObj => Scanning(depth - 1, depth == 1)
      case OpenArr => if maxDepth > 0 && depth + 1 > maxDepth then Stopped(TooDeep) else Scanning(depth + 1, false)
      case OpenObj => if maxDepth > 0 && depth + 1 > maxDepth then Stopped(TooDeep) else Scanning(depth + 1, false)
  }

  function ScanState(toks: seq<Token>, maxDepth: int): Progress {
    if toks == [] then Scanning(0, false)
    else match ScanState(toks[..|toks| - 1], maxDepth)
      case Stopped(out) => Stopped(out)
      case Scanning(depth, done) => ScanToken(depth, done, toks[|toks| - 1], maxDepth)
  }

  function ScanOutcome(toks: seq<Token>, tail: Tail, blank: bool, maxDepth: int): Outcome {
    match ScanState(toks, maxDepth)
    case Stopped(out) => out
    case Scanning(depth, done) =>
      if tail.Broken? then Malformed
      else if depth != 0 then Unfinished
      else if !done && !blank then Empty
      else Accepted
  }

  /** What comes after a stop is not looked at. */
  lemma {:induction false} StopsEarly(toks: seq<Token>, k: nat, maxDepth: int)
    requires k <= |toks|
    ensures ScanState(toks[..k], maxDepth).Stopped? ==> ScanState(toks, maxDepth) == ScanState(toks[..k], maxDepth)
    decreases |toks| - k
  {
    if k == |toks| {
      assert toks[..k] == toks;
    } else {
      StopsEarly(toks, k + 1, maxDepth);
      assert toks[..k + 1][..k] == toks[..k];
    }
  }

  // ------------------------------------------------ the decoder and the serialisation agree

  function FrameTokens(f: Frame): seq<Token> {
    match f
    case InArr(elems) => [OpenArr] + ElemTokens(elems)
    case BeforeKey(members) => [OpenObj] + MemberTokens(members)
    case AfterKey(members, key) => [OpenObj] + MemberTokens(members) + [Value(StrAtom(key))]
  }

  function FramesTokens(frames: seq<Frame>): seq<Token> {
    if frames == [] then []
    else FramesTokens(frames[..|frames| - 1]) + FrameTokens(frames[|frames| - 1])
  }

  /** The tokens a decoder has delivered, read off its state. */
  function Flatten(d: Decoder): seq<Token> {
    ElemTokens(d.roots) + FramesTokens(d.frames)
  }

  lemma FramesReplaced(frames: seq<Frame>, f: Frame)
    requires frames != []
    ensures var n := |frames| - 1;
      FramesTokens(frames[n := f]) == FramesTokens(frames[..n]) + FrameTokens(f)
  {
    var n := |frames| - 1;
    assert frames[n := f][..n] == frames[..n];
  }

  lemma ElemsSnoc(elems: seq<Json>, v: Json)
    ensures ElemTokens(elems + [v]) == ElemTokens(elems) + Tokens(v)
    ensures ElemDepth(elems + [v]) == Max(ElemDepth(elems), Depth(v))
  {
    assert (elems + [v])[..|elems|] == elems;
  }

  lemma MembersSnoc(members: seq<Member>, m: Member)
    ensures MemberTokens(members + [m]) == MemberTokens(members) + [Value(StrAtom(m.key))] + Tokens(m.value)
    ensures MemberDepth(members + [m]) == Max(MemberDepth(members), Depth(m.value))
  {
    assert (members + [m])[..|members|] == members;
  }

  /** The frame the value goes to grows by the value's tokens. */
  lemma ArrTakes(elems: seq<Json>, v: Json)
    ensures FrameTokens(InArr(elems + [v])) == FrameTokens(InArr(elems)) + Tokens(v)
  {
    ElemsSnoc(elems, v);
    Assoc([OpenArr], ElemTokens(elems), Tokens(v));
  }

  lemma ObjTakes(members: seq<Member>, key: string, v: Json)
    ensures FrameTokens(BeforeKey(members + [Member(key, v)])) == FrameTokens(AfterKey(members, key)) + Tokens(v)
  {
    MembersSnoc(members, Member(key, v));
    Assoc([OpenObj], MemberTokens(members) + [Value(StrAtom(key))], Tokens(v));
    Assoc([OpenObj], MemberTokens(members), [Value(StrAtom(key))]);
  }

  lemma Assoc(a: seq<Token>, b: seq<Token>, c: seq<Token>)
    ensures a + (b + c) == (a + b) + c
  {
  }

  lemma Regroup(a: seq<Token>, b: seq<Token>, c: seq<Token>, d: seq<Token>)
    ensures a + (b + (c + d)) == (a + (b + c)) + d
  {
  }

  lemma CompleteFlattens(d: Decoder, v: Json)
    requires Complete(d, v).Some?
    ensures Flatten(Complete(d, v).value) == Flatten(d) + Tokens(v)
  {
    var d' := Complete(d, v).value;
    if d.frames == [] {
      assert d'.roots[..|d.roots|] == d.roots;
    } else {
      var n := |d.frames| - 1;
      FramesReplaced(d.frames, d'.frames[n]);
      if d.frames[n].InArr? {
        ArrTakes(d.frames[n].elems, v);
      } else {
        ObjTakes(d.frames[n].members, d.frames[n].key, v);
      }
      Regroup(ElemTokens(d.roots), FramesTokens(d.frames[..n]), FrameTokens(d.frames[n]), Tokens(v));
    }
  }

  lemma OpenFlattens(d: Decoder, f: Frame)
    ensures Flatten(d.(frames := d.frames + [f])) == Flatten(d) + FrameTokens(f)
  {
    assert (d.frames + [f])[..|d.frames|] == d.frames;
  }

  lemma CloseFlattens(d: Decoder, v: Json, tok: Token)
    requires d.frames != [] && Tokens(v) == FrameTokens(Top(d)) + [tok]
    requires Complete(d.(frames := d.frames[..|d.frames| - 1]), v).Some?
    ensures Flatten(Complete(d.(frames := d.frames[..|d.frames| - 1]), v).value) == Flatten(d) + [tok]
  {
    var n := |d.frames| - 1;
    CompleteFlattens(d.(frames := d.frames[..n]), v);
    Regroup(ElemTokens(d.roots), FramesTokens(d.frames[..n]), FrameTokens(d.frames[n]), [tok]);
  }

  lemma KeyFlattens(d: Decoder, key: string)
    requires d.frames != [] && Top(d).BeforeKey?
    ensures Flatten(d.(frames := d.frames[|d.frames| - 1 := AfterKey(Top(d).members, key)])) == Flatten(d) + [Value(StrAtom(key))]
  {
    var n := |d.frames| - 1;
    FramesReplaced(d.frames, AfterKey(Top(d).members, key));
    Regroup(ElemTokens(d.roots), FramesTokens(d.frames[..n]), FrameTokens(d.frames[n]), [Value(StrAtom(key))]);
  }

  lemma FeedFlattens(d: Decoder, tok: Token)
    requires Feed(d, tok).Some?
    ensures Flatten(Feed(d, tok).value) == Flatten(d) + [tok]
  {
    match tok
    case OpenArr => OpenFlattens(d, InArr([]));
    case OpenObj => OpenFlattens(d, BeforeKey([]));
    case CloseArr => CloseFlattens(d, Arr(Top(d).elems), tok);
    case CloseObj => CloseFlattens(d, Obj(Top(d).members), tok);
    case Value(atom) =>
      if d.frames != [] && Top(d).BeforeKey? {
        KeyFlattens(d, atom.text);
      } else {
        CompleteFlattens(d, Scalar(atom));
      }
  }

  lemma {:induction false} FeedAllFlattens(toks: seq<Token>)
    requires Delivered(toks)
    ensures Flatten(FeedAll(START, toks).value) == toks
  {
    if toks != [] {
      var n := |toks| - 1;
      FeedAllFlattens(toks[..n]);
      FeedFlattens(FeedAll(START, toks[..n]).value, toks[n]);
    }
  }

  lemma {:induction false} FeedAllConcat(d: Decoder, a: seq<Token>, b: seq<Token>)
    ensures FeedAll(d, a + b) == match FeedAll(d, a) case None => None case Some(d') => FeedAll(d', b)
  {
    if b == [] {
      assert a + b == a;
    } else {
      var n := |b| - 1;
      assert (a + b)[..|a| + n] == a + b[..n];
      FeedAllConcat(d, a, b[..n]);
    }
  }

  lemma FeedOne(d: Decoder, tok: Token)
    ensures FeedAll(d, [tok]) == Feed(d, tok)
  {
    assert [tok][..0] == [];
    assert FeedAll(d, []) == Some(d);
  }

  /** Wherever a value may start, the decoder accepts the tokens of any value and completes it. */
  lemma {:induction false} FeedsValue(d: Decoder, v: Json)
    requires TakesValue(d)
    ensures FeedAll(d, Tokens(v)) == Complete(d, v) && Complete(d, v).Some?
    decreases v, 0
  {
    match v
    case Scalar(atom) => FeedOne(d, Value(atom));
    case Arr(elems) =>
      FeedsElems(d, elems);
      ClosesArr(d, elems);
    case Obj(members) =>
      FeedsMembers(d, members);
      ClosesObj(d, members);
  }

  lemma {:induction false} ClosesArr(d: Decoder, elems: seq<Json>)
    requires TakesValue(d) && FeedAll(Pushed(d, InArr([])), ElemTokens(elems)) == Some(Pushed(d, InArr(elems)))
    ensures FeedAll(d, Tokens(Arr(elems))) == Complete(d, Arr(elems)) && Complete(d, Arr(elems)).Some?
  {
    FeedsBetween(d, OpenArr, InArr([]), ElemTokens(elems), InArr(elems), CloseArr);
    Popped(d, InArr(elems));
  }

  lemma {:induction false} ClosesObj(d: Decoder, members: seq<Member>)
    requires TakesValue(d) && FeedAll(Pushed(d, BeforeKey([])), MemberTokens(members)) == Some(Pushed(d, BeforeKey(members)))
    ensures FeedAll(d, Tokens(Obj(members))) == Complete(d, Obj(members)) && Complete(d, Obj(members)).Some?
  {
    FeedsBetween(d, OpenObj, BeforeKey([]), MemberTokens(members), BeforeKey(members), CloseObj);
    Popped(d, BeforeKey(members));
  }

  function Pushed(d: Decoder, f: Frame): Decoder {
    d.(frames := d.frames + [f])
  }

  lemma Popped(d: Decoder, f: Frame)
    ensures Top(Pushed(d, f)) == f && Pushed(d, f).(frames := Pushed(d, f).frames[..|d.frames|]) == d
  {
    assert Pushed(d, f).frames[..|d.frames|] == d.frames;
  }

  /** An opening delimiter, what fills its frame, and the closing one. */
  lemma FeedsBetween(d: Decoder, first: Token, e: Frame, inner: seq<Token>, f: Frame, last: Token)
    requires Feed(d, first) == Some(Pushed(d, e)) && FeedAll(Pushed(d, e), inner) == Some(Pushed(d, f))
    ensures FeedAll(d, [first] + inner + [last]) == Feed(Pushed(d, f), last)
  {
    FeedOne(d, first);
    FeedOne(Pushed(d, f), last);
    FeedAllConcat(d, [first], inner);
    FeedAllConcat(d, [first] + inner, [last]);
  }

  lemma {:induction false} FeedsElems(d: Decoder, elems: seq<Json>)
    ensures FeedAll(d.(frames := d.frames + [InArr([])]), ElemTokens(elems))
         == Some(d.(frames := d.frames + [InArr(elems)]))
    decreases elems, 1
  {
    if elems != [] {
      var before, last := elems[..|elems| - 1], elems[|elems| - 1];
      assert elems == before + [last];
      FeedsElems(d, before);
      FeedsValue(Pushed(d, InArr(before)), last);
      CompletesElem(d, before, last);
      FeedAllConcat(Pushed(d, InArr([])), ElemTokens(before), Tokens(last));
    }
  }

  lemma CompletesElem(d: Decoder, elems: seq<Json>, v: Json)
    ensures Complete(Pushed(d, InArr(elems)), v) == Some(Pushed(d, InArr(elems + [v])))
  {
    assert Pushed(d, InArr(elems)).frames[|d.frames| := InArr(elems + [v])] == d.frames + [InArr(elems + [v])];
  }

  lemma {:induction false} FeedsMembers(d: Decoder, members: seq<Member>)
    ensures FeedAll(d.(frames := d.frames + [BeforeKey([])]), MemberTokens(members))
         == Some(d.(frames := d.frames + [BeforeKey(members)]))
    decreases members, 1
  {
    if members != [] {
      var before, m := members[..|members| - 1], members[|members| - 1];
      assert members == before + [m];
      FeedsMembers(d, before);
      FeedsKey(d, before, m.key);
      FeedsValue(Pushed(d, AfterKey(before, m.key)), m.value);
      CompletesMember(d, before, m);
      FeedAllConcat(Pushed(d, BeforeKey([])), MemberTokens(before), [Value(StrAtom(m.key))]);
      FeedAllConcat(Pushed(d, BeforeKey([])), MemberTokens(before) + [Value(StrAtom(m.key))], Tokens(m.value));
    }
  }

  lemma FeedsKey(d: Decoder, members: seq<Member>, key: string)
    ensures FeedAll(Pushed(d, BeforeKey(members)), [Value(StrAtom(key))]) == Some(Pushed(d, AfterKey(members, key)))
  {
    var d2 := Pushed(d, BeforeKey(members));
    FeedOne(d2, Value(StrAtom(key)));
    assert d2.frames[|d.frames| := AfterKey(members, key)] == d.frames + [AfterKey(members, key)];
  }

  lemma CompletesMember(d: Decoder, members: seq<Member>, m: Member)
    ensures Complete(Pushed(d, AfterKey(members, m.key)), m.value) == Some(Pushed(d, BeforeKey(members + [m])))
  {
    var d3 := Pushed(d, AfterKey(members, m.key));
    assert d3.frames[|d.frames| := BeforeKey(members + [m])] == d.frames + [BeforeKey(members + [m])];
  }

  /** Reading a serialised value gives the value back; decoding does, unless it nests deeper than the decoder takes. */
  lemma {:induction false} DecodeInvertsTokens(v: Json)
    ensures Delivered(Tokens(v)) && FeedAll(START, Tokens(v)) == Some(Decoder([v], []))
    ensures Decode(Tokens(v)) == if Depth(v) <= MAX_NESTING then Some(v) else None
  {
    FeedsValue(START, v);
    assert START.roots + [v] == [v];
  }

  // ------------------------------------------------ how deep the decoder has been

  function Inner(f: Frame): nat {
    match f
    case InArr(elems) => ElemDepth(elems)
    case BeforeKey(members) => MemberDepth(members)
    case AfterKey(members, _) => MemberDepth(members)
  }

  function Reached(roots: seq<Json>, frames: seq<Frame>): nat {
    if frames == [] then ElemDepth(roots)
    else
      var n := |frames| - 1;
      Max(Reached(roots, frames[..n]), n + 1 + Inner(frames[n]))
  }

  lemma ReachedReplaced(roots: seq<Json>, frames: seq<Frame>, f: Frame)
    requires frames != []
    ensures var n := |frames| - 1;
      Reached(roots, frames[n := f]) == Max(Reached(roots, frames[..n]), n + 1 + Inner(f))
  {
    var n := |frames| - 1;
    assert frames[n := f][..n] == frames[..n];
  }

  /** The top frame takes in something of depth k. */
  lemma ReachedGrows(roots: seq<Json>, frames: seq<Frame>, f: Frame, k: nat)
    requires frames != [] && Inner(f) == Max(Inner(frames[|frames| - 1]), k)
    ensures Reached(roots, frames[|frames| - 1 := f]) == Max(Reached(roots, frames), |frames| + k)
  {
    ReachedReplaced(roots, frames, f);
  }

  lemma InnerTakes(f: Frame, v: Json)
    ensures f.InArr? ==> Inner(InArr(f.elems + [v])) == Max(Inner(f), Depth(v))
    ensures f.AfterKey? ==> Inner(BeforeKey(f.members + [Member(f.key, v)])) == Max(Inner(f), Depth(v))
  {
    if f.InArr? {
      ElemsSnoc(f.elems, v);
    } else if f.AfterKey? {
      MembersSnoc(f.members, Member(f.key, v));
    }
  }

  lemma CompleteReaches(d: Decoder, v: Json)
    requires Complete(d, v).Some?
    ensures var d' := Complete(d, v).value;
      Reached(d'.roots, d'.frames) == Max(Reached(d.roots, d.frames), |d.frames| + Depth(v))
      && |d'.frames| == |d.frames|
  {
    if d.frames == [] {
      ElemsSnoc(d.roots, v);
    } else {
      var n := |d.frames| - 1;
      InnerTakes(d.frames[n], v);
      ReachedGrows(d.roots, d.frames, Complete(d, v).value.frames[n], Depth(v));
    }
  }

  lemma OpenReaches(d: Decoder, f: Frame)
    requires Inner(f) == 0
    ensures Reached(d.roots, d.frames + [f]) == Max(Reached(d.roots, d.frames), |d.frames| + 1)
  {
    assert (d.frames + [f])[..|d.frames|] == d.frames;
  }

  lemma CloseReaches(d: Decoder, v: Json)
    requires d.frames != [] && Depth(v) == 1 + Inner(Top(d))
    requires Complete(d.(frames := d.frames[..|d.frames| - 1]), v).Some?
    ensures var d' := Complete(d.(frames := d.frames[..|d.frames| - 1]), v).value;
      Reached(d'.roots, d'.frames) == Reached(d.roots, d.frames) && |d'.frames| == |d.frames| - 1
  {
    CompleteReaches(d.(frames := d.frames[..|d.frames| - 1]), v);
  }

  /** One token reaches no deeper than the frames it leaves open. */
  lemma FeedReaches(d: Decoder, tok: Token)
    requires Feed(d, tok).Some?
    ensures var d' := Feed(d, tok).value;
      Reached(d'.roots, d'.frames) == Max(Reached(d.roots, d.frames), |d'.frames|)
  {
    var d' := Feed(d, tok).value;
    FramesWithinReach(d.roots, d.frames);
    if tok.OpenArr? {
      OpenReaches(d, InArr([]));
    } else if tok.OpenObj? {
      OpenReaches(d, BeforeKey([]));
    } else if tok.CloseArr? {
      CloseReaches(d, Arr(Top(d).elems));
    } else if tok.CloseObj? {
      CloseReaches(d, Obj(Top(d).members));
    } else if d.frames != [] && Top(d).BeforeKey? {
      ReachedReplaced(d.roots, d.frames, Top(d'));
    } else {
      CompleteReaches(d, Scalar(tok.atom));
    }
  }

  lemma FramesWithinReach(roots: seq<Json>, frames: seq<Frame>)
    ensures |frames| <= Reached(roots, frames)
  {
  }

  // ------------------------------------------------ what the scan knows

  /** Values begun: finished ones, and the open one. */
  function Begun(d: Decoder): nat {
    |d.roots| + if d.frames == [] then 0 else 1
  }

  ghost predicate Tracks(p: Progress, d: Decoder, maxDepth: int) {
    match p
    case Scanning(depth, done) =>
      && depth == |d.frames|
      && Begun(d) <= 1
      && (done <==> d.roots != [])
      && (maxDepth > 0 ==> Reached(d.roots, d.frames) <= maxDepth)
    case Stopped(out) =>
      || (out == Trailing && Begun(d) >= 2)
      || (out == TooDeep && 0 < maxDepth < Reached(d.roots, d.frames))
  }

  lemma TokenTracks(p: Progress, d: Decoder, tok: Token, maxDepth: int)
    requires Tracks(p, d, maxDepth) && Feed(d, tok).Some?
    ensures Tracks(match p case Stopped(_) => p case Scanning(depth, done) => ScanToken(depth, done, tok, maxDepth),
                   Feed(d, tok).value, maxDepth)
  {
    FeedReaches(d, tok);
    CompleteBegins(d, tok);
  }

  /** No token takes back a value begun, and one after a finished value begins another. */
  lemma CompleteBegins(d: Decoder, tok: Token)
    requires Feed(d, tok).Some?
    ensures var d' := Feed(d, tok).value;
      && Begun(d') == Begun(d) + (if d.frames == [] then 1 else 0)
      && |d'.frames| == |d.frames| + (if tok.OpenArr? || tok.OpenObj? then 1 else if tok.Value? then 0 else -1)
      && (d'.frames != [] ==> d'.roots == d.roots)
      && (d'.frames == [] ==> |d'.roots| == |d.roots| + 1)
  {
  }

  /** The counter of the scan is the number of open delimiters, it is done exactly when one value is complete,
      and it stops only for a second value or for a value that nests too deep. */
  lemma {:induction false} ScanTracksDecoder(toks: seq<Token>, maxDepth: int)
    requires Delivered(toks)
    ensures Tracks(ScanState(toks, maxDepth), FeedAll(START, toks).value, maxDepth)
  {
    if toks != [] {
      var n := |toks| - 1;
      ScanTracksDecoder(toks[..n], maxDepth);
      TokenTracks(ScanState(toks[..n], maxDepth), FeedAll(START, toks[..n]).value, toks[n], maxDepth);
    }
  }

  /** The tokens are those of v, and v is not too deep; a limit of zero or less is none. */
  predicate Serialises(toks: seq<Token>, v: Json, maxDepth: int) {
    toks == Tokens(v) && (maxDepth <= 0 || Depth(v) <= maxDepth)
  }

  /** The scan accepts exactly the serialisations of one value that is not too deep, and the blank body. */
  lemma ScanAcceptsExactly(toks: seq<Token>, tail: Tail, blank: bool, maxDepth: int)
    requires Delivered(toks)
    requires blank ==> toks == []
    ensures ScanOutcome(toks, tail, blank, maxDepth) == Accepted <==>
            tail.Eof? && ((exists v :: Serialises(toks, v, maxDepth)) || blank)
  {
    var d := FeedAll(START, toks).value;
    ScanTracksDecoder(toks, maxDepth);
    FeedAllFlattens(toks);
    if ScanOutcome(toks, tail, blank, maxDepth) == Accepted && !blank {
      assert d.roots == [d.roots[0]] && d.frames == [];
      OneRoot(d.roots[0]);
      assert Serialises(toks, d.roots[0], maxDepth);
    }
    if v :| Serialises(toks, v, maxDepth) {
      DecodeInvertsTokens(v);
      OneRoot(v);
    }
  }

  lemma OneRoot(v: Json)
    ensures ElemTokens([v]) == Tokens(v) && Reached([v], []) == Depth(v)
  {
    assert [v][..0] == [];
    assert ElemTokens([]) == [] && ElemDepth([]) == 0;
  }

  /** A value that nests too deep is reported as such, whatever follows it. */
  lemma TooDeepIsReported(v: Json, more: seq<Token>, tail: Tail, blank: bool, maxDepth: int)
    requires 0 < maxDepth < Depth(v)
    ensures ScanOutcome(Tokens(v) + more, tail, blank, maxDepth) == TooDeep
  {
    DecodeInvertsTokens(v);
    OneRoot(v);
    ScanTracksDecoder(Tokens(v), maxDepth);
    assert (Tokens(v) + more)[..|Tokens(v)|] == Tokens(v);
    StopsEarly(Tokens(v) + more, |Tokens(v)|, maxDepth);
  }

  /** After the first n tokens the first value is still open, more than maxDepth deep. */
  ghost predicate DeepAt(toks: seq<Token>, n: nat, maxDepth: int) {
    && n <= |toks| && Delivered(toks[..n])
    && FeedAll(START, toks[..n]).value.roots == [] && |FeedAll(START, toks[..n]).value.frames| > maxDepth
  }

  ghost predicate OpensDeeper(toks: seq<Token>, maxDepth: int) {
    exists n: nat :: DeepAt(toks, n, maxDepth)
  }

  lemma DeepSnoc(toks: seq<Token>, tok: Token, maxDepth: int)
    requires Delivered(toks + [tok])
    ensures OpensDeeper(toks + [tok], maxDepth) <==> OpensDeeper(toks, maxDepth) || DeepAt(toks + [tok], |toks| + 1, maxDepth)
  {
    var all := toks + [tok];
    if n: nat :| DeepAt(toks, n, maxDepth) {
      assert all[..n] == toks[..n];
      assert DeepAt(all, n, maxDepth);
    }
    if n: nat :| DeepAt(all, n, maxDepth) {
      if n <= |toks| {
        assert all[..n] == toks[..n];
        assert DeepAt(toks, n, maxDepth);
      }
    }
  }

  /** The scan stops for depth exactly when the first value opens deeper than it may. */
  lemma {:induction false} TooDeepExactly(toks: seq<Token>, maxDepth: int)
    requires Delivered(toks)
    ensures ScanState(toks, maxDepth) == Stopped(TooDeep) <==> maxDepth > 0 && OpensDeeper(toks, maxDepth)
  {
    if toks == [] {
      if n: nat :| DeepAt(toks, n, maxDepth) {
        assert toks[..n] == [];
      }
    } else {
      var before, tok := toks[..|toks| - 1], toks[|toks| - 1];
      assert toks == before + [tok] && toks[..|before| + 1] == toks;
      TooDeepExactly(before, maxDepth);
      DeepSnoc(before, tok, maxDepth);
      ScanTracksDecoder(before, maxDepth);
      CompleteBegins(FeedAll(START, before).value, tok);
    }
  }

  /** After the scan accepts a body that is not blank, its tokens are those of exactly one value, and decoding
      gives this value or, if it nests deeper than the decoder takes, fails. */
  lemma AcceptedDecodes(toks: seq<Token>, tail: Tail, maxDepth: int)
    requires Delivered(toks) && ScanOutcome(toks, tail, false, maxDepth) == Accepted
    ensures exists v :: Tokens(v) == toks && Decode(toks) == if Depth(v) <= MAX_NESTING then Some(v) else None
    ensures forall v, w :: Tokens(v) == toks && Tokens(w) == toks ==> v == w
    ensures 0 < maxDepth <= MAX_NESTING ==> Decode(toks).Some? && Tokens(Decode(toks).value) == toks
  {
    ScanAcceptsExactly(toks, tail, false, maxDepth);
    var v :| Serialises(toks, v, maxDepth);
    DecodeInvertsTokens(v);
    forall w | Tokens(w) == toks ensures w == v {
      DecodeInvertsTokens(w);
    }
  }

  /** Nothing but brackets, n of them. */
  function Nested(n: nat): Json {
    if n == 0 then Scalar(NullAtom) else Arr([Nested(n - 1)])
  }

  lemma {:induction false} NestedIsDeep(n: nat)
    ensures Depth(Nested(n)) == n
  {
    if n > 0 {
      NestedIsDeep(n - 1);
      assert [Nested(n - 1)][..0] == [];
      assert ElemDepth([]) == 0;
    }
  }

  /** A value that the scan lets through and the decoder does not take. */
  lemma DeepPassesButDoesNotDecode(n: nat, maxDepth: int)
    requires n > MAX_NESTING && (maxDepth <= 0 || n <= maxDepth)
    ensures ScanOutcome(Tokens(Nested(n)), Eof, false, maxDepth) == Accepted && Decode(Tokens(Nested(n))).None?
  {
    NestedIsDeep(n);
    DecodeInvertsTokens(Nested(n));
    assert Serialises(Tokens(Nested(n)), Nested(n), maxDepth);
    ScanAcceptsExactly(Tokens(Nested(n)), Eof, false, maxDepth);
  }

  /** The scan keeps undecodable values from the decoder exactly when its limit is one the decoder can meet. */
  lemma ScanGuardsDecode(maxDepth: int)
    ensures (forall toks :: Guarded(toks, maxDepth)) <==> 0 < maxDepth <= MAX_NESTING
  {
    if 0 < maxDepth <= MAX_NESTING {
      forall toks ensures Guarded(toks, maxDepth) {
        if Delivered(toks) && ScanOutcome(toks, Eof, false, maxDepth) == Accepted {
          AcceptedDecodes(toks, Eof, maxDepth);
        }
      }
    } else {
      var n := if maxDepth > MAX_NESTING then maxDepth else MAX_NESTING + 1;
      DeepPassesButDoesNotDecode(n, maxDepth);
      DecodeInvertsTokens(Nested(n));
      assert !Guarded(Tokens(Nested(n)), maxDepth);
    }
  }

  predicate Guarded(toks: seq<Token>, maxDepth: int) {
    Delivered(toks) && ScanOutcome(toks, Eof, false, maxDepth) == Accepted ==> Decode(toks).Some?
  }

  /** A blank body passes the scan although it holds no value to decode. */
  lemma BlankPassesButDoesNotDecode(maxDepth: int)
    ensures ScanOutcome([], Eof, true, maxDepth) == Accepted && Decode([]).None?
  {
  }
}
