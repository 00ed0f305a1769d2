/** Finding the JSON object in a model's reply: the fence, the one-pass scanner, and the printer it inverts. */
module JsonScanner {
  import opened Common

  // ---------------------------------------------------------------------------
  // The scanner
  // ---------------------------------------------------------------------------

  datatype State = State(depth: int, inString: bool, escaped: bool)

  const START := State(0, false, false)

  function Step(st: State, c: char): State {
    if st.escaped then st.(escaped := false)
    else if c == '\\' then st.(escaped := true)
    else if c == '"' then st.(inString := !st.inString)
    else if st.inString then st
    else if c == '{' then st.(depth := st.depth + 1)
    else if c == '}' then st.(depth := st.depth - 1)
    else st
  }

  function Shift(o: Option<nat>, k: nat): Option<nat> {
    if o.Some? then Some(o.value + k) else None
  }

  /** How many characters bring the depth to zero. */
  function Scan(st: State, s: string): Option<nat>
    decreases |s|
  {
    if s == "" then None
    else
      var next := Step(st, s[0]);
      if next.depth == 0 then Some(1) else Shift(Scan(next, s[1..]), 1)
  }

  lemma {:induction false} ScanWithin(st: State, s: string)
    ensures Scan(st, s).Some? ==> 0 < Scan(st, s).value <= |s|
    decreases |s|
  {
    if s != "" {
      ScanWithin(Step(st, s[0]), s[1..]);
    }
  }

  function IndexOf(s: string, c: char): (r: Option<nat>)
    ensures match r
            case Some(i) => i < |s| && s[i] == c && c !in s[..i]
            case None => c !in s
  {
    if s == "" then None
    else if s[0] == c then Some(0)
    else
      var r := IndexOf(s[1..], c);
      assert s == [s[0]] + s[1..];
      assert r.Some? ==> s[..r.value + 1] == [s[0]] + s[1..][..r.value];
      Shift(r, 1)
  }

  function Extract(text: string): Option<string> {
    match IndexOf(text, '{')
    case None => None
    case Some(i) =>
      ScanWithin(START, text[i..]);
      match Scan(START, text[i..])
      case None => None
      case Some(k) => Some(text[i..i + k])
  }

  /** The scan that began at `start` has reached `i` in this state without closing. */
  predicate Reached(text: string, start: nat, i: nat, st: State)
    requires start <= i <= |text|
  {
    && (if i == start then st == START else st.depth > 0)
    && Scan(START, text[start..]) == Shift(Scan(st, text[i..]), i - start)
  }

  lemma Advance(text: string, start: nat, i: nat, st: State)
    requires IndexOf(text, '{') == Some(start) && start <= i < |text| && Reached(text, start, i, st)
    ensures var next := Step(st, text[i]);
      if next.depth == 0 then Extract(text) == Some(text[start..i + 1])
      else next.depth > 0 && Reached(text, start, i + 1, next)
  {
    hide IndexOf, Scan;
    StepUp(st, text[i]);
    ScanOne(st, text[i..]);
    assert text[i..][1..] == text[i + 1..] && text[i..][0] == text[i];
    hide Step;
    var next := Step(st, text[i]);
    if next.depth == 0 {
      assert Scan(START, text[start..]) == Some(i + 1 - start);
    } else {
      assert Scan(START, text[start..]) == Shift(Shift(Scan(next, text[i + 1..]), 1), i - start);
    }
  }

  lemma StepUp(st: State, c: char)
    requires st.depth > 0 || (st == START && c == '{')
    ensures Step(st, c).depth >= 0
  {
  }

  lemma ScanOne(st: State, s: string)
    requires s != ""
    ensures var next := Step(st, s[0]);
      Scan(st, s) == if next.depth == 0 then Some(1) else Shift(Scan(next, s[1..]), 1)
  {
  }

  /** One pass from the first opening brace, keeping depth, string and escape as it goes. */
  method ExtractJsonObject(text: string) returns (r: Option<string>)
    ensures r == Extract(text)
  {
    hide Scan, Reached, IndexOf;
    var found := IndexOf(text, '{');
    if found.None? {
      return None;
    }
    var start := found.value;
    var depth, inString, escaped := 0, false, false;
    Begins(text, start);
    var i := start;
    while i < |text|
      invariant start <= i <= |text| && Reached(text, start, i, State(depth, inString, escaped))
      invariant if i == start then i < |text| && text[i] == '{' && State(depth, inString, escaped) == START else depth > 0
    {
      var ch := text[i];
      Advance(text, start, i, State(depth, inString, escaped));
      i := i + 1;
      if escaped {
        escaped := false;
        continue;
      }
      if ch == '\\' {
        escaped := true;
        continue;
      }
      if ch == '"' {
        inString := !inString;
        continue;
      }
      if inString {
        continue;
      }
      if ch == '{' {
        depth := depth + 1;
      }
      if ch == '}' {
        depth := depth - 1;
        if depth == 0 {
          return Some(text[start..i]);
        }
      }
    }
    Unclosed(text, start, State(depth, inString, escaped));
    return None;
  }

  lemma Begins(text: string, start: nat)
    requires IndexOf(text, '{') == Some(start)
    ensures start < |text| && text[start] == '{' && Reached(text, start, start, START)
  {
  }

  lemma Unclosed(text: string, start: nat, st: State)
    requires IndexOf(text, '{') == Some(start) && start <= |text| && Reached(text, start, |text|, st)
    ensures Extract(text) == None
  {
  }

  // ---------------------------------------------------------------------------
  // What the scanner finds
  // ---------------------------------------------------------------------------

  /** The braces of a text read outside a string; a backslash takes the next character with it anywhere. */
  function Bare(s: string): string
    decreases |s|
  {
    if s == "" then ""
    else if s[0] == '\\' then if |s| == 1 then "" else Bare(s[2..])
    else if s[0] == '"' then Quoted(s[1..])
    else if s[0] == '{' || s[0] == '}' then [s[0]] + Bare(s[1..])
    else Bare(s[1..])
  }

  /** The same for a text that starts inside a string. */
  function Quoted(s: string): string
    decreases |s|
  {
    if s == "" then ""
    else if s[0] == '\\' then if |s| == 1 then "" else Quoted(s[2..])
    else if s[0] == '"' then Bare(s[1..])
    else Quoted(s[1..])
  }

  function Count(s: string, c: char): nat {
    if s == "" then 0 else (if s[0] == c then 1 else 0) + Count(s[1..], c)
  }

  /** Opening braces outside strings, less closing ones. */
  function Level(s: string): int {
    Count(Bare(s), '{') - Count(Bare(s), '}')
  }

  function Fold(st: State, s: string): State
    decreases |s|
  {
    if s == "" then st else Fold(Step(st, s[0]), s[1..])
  }

  lemma {:induction false} FoldMeasures(st: State, s: string)
    requires !st.escaped
    ensures var braces := if st.inString then Quoted(s) else Bare(s);
      Fold(st, s).depth == st.depth + Count(braces, '{') - Count(braces, '}')
    decreases |s|
  {
    if s != "" {
      if s[0] == '\\' {
        if |s| > 1 {
          assert s[1..][1..] == s[2..];
          FoldMeasures(st, s[2..]);
        } else {
          assert Fold(Step(st, s[0]), s[1..]) == Step(st, s[0]);
        }
      } else {
        FoldMeasures(Step(st, s[0]), s[1..]);
        if !st.inString && (s[0] == '{' || s[0] == '}') {
          assert Bare(s)[1..] == Bare(s[1..]);
        }
      }
    }
  }

  /** From a positive depth, the scan stops where the depth first leaves the positive numbers. */
  lemma {:induction false} ScanStops(st: State, s: string, j: nat)
    requires st.depth > 0 && j <= |s|
    ensures var r := Scan(st, s);
      && (r.Some? && j == r.value ==> Fold(st, s[..j]).depth == 0)
      && (r.None? || j < r.value ==> Fold(st, s[..j]).depth > 0)
    decreases |s|
  {
    if s != "" && j > 0 {
      var next := Step(st, s[0]);
      assert s[..j][1..] == s[1..][..j - 1];
      if next.depth == 0 {
        assert j == 1 ==> Fold(st, s[..j]) == Fold(next, "");
      } else {
        ScanStops(next, s[1..], j - 1);
      }
    }
  }

  /** Balanced outside strings, and no shorter prefix is. */
  predicate Closes(r: string) {
    && r != "" && Level(r) == 0
    && forall j :: 0 < j < |r| ==> Level(r[..j]) > 0
  }

  predicate Open(s: string) {
    forall j :: 0 < j <= |s| ==> Level(s[..j]) > 0
  }

  predicate ScanAt(s: string, j: nat)
    requires j <= |s|
  {
    var r := Scan(START, s);
    && (r.Some? && j == r.value ==> Level(s[..j]) == 0)
    && (r.None? || j < r.value ==> Level(s[..j]) > 0)
  }

  lemma FirstBraceOpens(s: string, j: nat)
    requires 0 < j <= |s| && s[0] == '{'
    ensures ScanAt(s, j)
  {
    hide Level;
    var next := Step(START, s[0]);
    ScanStops(next, s[1..], j - 1);
    assert s[..j][1..] == s[1..][..j - 1];
    assert Fold(START, s[..j]) == Fold(next, s[1..][..j - 1]);
    LevelIsDepth(s[..j]);
  }

  lemma LevelIsDepth(s: string)
    ensures Level(s) == Fold(START, s).depth
  {
    FoldMeasures(START, s);
  }

  lemma ScanIsShortest(s: string)
    requires s != "" && s[0] == '{'
    ensures match Scan(START, s)
      case Some(k) => 0 < k <= |s| && Closes(s[..k])
      case None => Open(s)
  {
    hide Level, Scan;
    ScanWithin(START, s);
    var r := Scan(START, s);
    if r.Some? {
      var k := r.value;
      FirstBraceOpens(s, k);
      forall j | 0 < j < k ensures Level(s[..k][..j]) > 0 {
        FirstBraceOpens(s, j);
        assert s[..k][..j] == s[..j];
      }
    } else {
      forall j | 0 < j <= |s| ensures Level(s[..j]) > 0 {
        FirstBraceOpens(s, j);
      }
    }
  }

  lemma ExtractFrom(text: string, i: nat)
    requires IndexOf(text, '{') == Some(i)
    ensures i <= |text|
    ensures match Scan(START, text[i..])
            case None => Extract(text) == None
            case Some(k) => k <= |text[i..]| && Extract(text) == Some(text[i..][..k])
  {
    hide Scan, IndexOf;
    var s := text[i..];
    ScanWithin(START, s);
    if Scan(START, s).Some? {
      assert text[i..i + Scan(START, s).value] == s[..Scan(START, s).value];
    }
  }

  /**
   * On every text, the extractor returns the shortest prefix, counted from the first opening brace, whose
   * braces outside strings cancel out; it returns nothing exactly when there is no opening brace or when
   * every prefix from it leaves more braces open than closed.
   */
  lemma ExtractIsShortestBalanced(text: string)
    ensures match IndexOf(text, '{')
      case None => '{' !in text && Extract(text) == None
      case Some(i) =>
        match Extract(text)
        case Some(r) => r <= text[i..] && Closes(r)
        case None => Open(text[i..])
  {
    hide Closes, Open, Scan;
    var found := IndexOf(text, '{');
    if found.Some? {
      hide Extract;
      ExtractFrom(text, found.value);
      ScanIsShortest(text[found.value..]);
    }
  }

  // ---------------------------------------------------------------------------
  // The printer it inverts
  // ---------------------------------------------------------------------------

  /** A raw character or a backslash pair; a four-digit escape is the pair with `u` and four raw digits. */
  datatype Item = Raw(c: char) | Esc(c: char)

  /** Concrete JSON text as section 2 of RFC 8259 lays it out, whitespace kept where it stands. */
  datatype Json =
    | Plain(text: string)                          // a number, true, false or null
    | Str(items: seq<Item>)
    | Arr(pad: string, elems: seq<Elem>)           // the pad is the whitespace of an empty array
    | Obj(pad: string, members: seq<Member>)

  datatype Elem = Elem(pre: string, v: Json, post: string)

  datatype Member = Member(pre: string, key: seq<Item>, mid: string, v: Json, post: string)

  function PrintItems(items: seq<Item>): string {
    if items == [] then ""
    else (match items[0] case Raw(c) => [c] case Esc(c) => ['\\', c]) + PrintItems(items[1..])
  }

  function PrintString(items: seq<Item>): string {
    "\"" + PrintItems(items) + "\""
  }

  function Print(j: Json): string
    decreases j
  {
    match j
    case Plain(text) => text
    case Str(items) => PrintString(items)
    case Arr(pad, elems) => "[" + (if elems == [] then pad else PrintElems(elems)) + "]"
    case Obj(pad, members) => "{" + Inside(pad, members) + "}"
  }

  function Inside(pad: string, members: seq<Member>): string
    decreases members, 1
  {
    if members == [] then pad else PrintMembers(members)
  }

  function PrintElems(elems: seq<Elem>): string
    requires elems != []
    decreases elems, 0
  {
    var e := elems[0];
    e.pre + Print(e.v) + e.post + if |elems| == 1 then "" else "," + PrintElems(elems[1..])
  }

  /** `mid` is the colon and the whitespace on either side of it. */
  function PrintMembers(members: seq<Member>): string
    requires members != []
    decreases members, 0
  {
    var m := members[0];
    m.pre + PrintString(m.key) + m.mid + Print(m.v) + m.post
      + if |members| == 1 then "" else "," + PrintMembers(members[1..])
  }

  /** Free of braces, quotes and backslashes, as numbers, literals, separators and whitespace are. */
  predicate Harmless(s: string) {
    forall c :: c in s ==> c !in "{}\"\\"
  }

  predicate ItemsValid(items: seq<Item>) {
    forall i :: 0 <= i < |items| ==> items[i].Raw? ==> items[i].c !in "\"\\"
  }

  predicate Valid(j: Json)
    decreases j
  {
    match j
    case Plain(text) => Harmless(text)
    case Str(items) => ItemsValid(items)
    case Arr(pad, elems) => Harmless(pad) && forall i :: 0 <= i < |elems| ==> ElemValid(elems[i])
    case Obj(pad, members) => Harmless(pad) && forall i :: 0 <= i < |members| ==> MemberValid(members[i])
  }

  predicate ElemValid(e: Elem)
    decreases e
  {
    Harmless(e.pre) && Harmless(e.post) && Valid(e.v)
  }

  predicate MemberValid(m: Member)
    decreases m
  {
    Harmless(m.pre) && ItemsValid(m.key) && Harmless(m.mid) && Harmless(m.post) && Valid(m.v)
  }

  predicate Stays(st: State, s: string, floor: int)
    decreases |s|
  {
    s == "" || (Step(st, s[0]).depth >= floor && Stays(Step(st, s[0]), s[1..], floor))
  }

  /** Reading s takes the scanner from one state to another and never below the floor. */
  predicate Passes(st: State, s: string, floor: int, to: State) {
    Fold(st, s) == to && Stays(st, s, floor)
  }

  lemma {:induction false} Appended(st: State, a: string, mid: State, b: string, floor: int, to: State)
    requires Passes(st, a, floor, mid) && Passes(mid, b, floor, to)
    ensures Passes(st, a + b, floor, to)
    decreases |a|
  {
    if a == "" {
      assert a + b == b;
    } else {
      assert (a + b)[1..] == a[1..] + b;
      Appended(Step(st, a[0]), a[1..], mid, b, floor, to);
    }
  }

  function Out(depth: int): State {
    State(depth, false, false)
  }

  lemma {:induction false} HarmlessPasses(s: string, depth: int, floor: int)
    requires Harmless(s) && floor <= depth
    ensures Passes(Out(depth), s, floor, Out(depth))
    decreases |s|
  {
    if s != "" {
      assert s[0] in s;
      HarmlessPasses(s[1..], depth, floor);
    }
  }

  lemma {:induction false} ItemsPass(items: seq<Item>, depth: int, floor: int)
    requires ItemsValid(items) && floor <= depth
    ensures Passes(State(depth, true, false), PrintItems(items), floor, State(depth, true, false))
  {
    if items != [] {
      var s := PrintItems(items);
      var inside := State(depth, true, false);
      ItemsPass(items[1..], depth, floor);
      if items[0].Raw? {
        assert s[1..] == PrintItems(items[1..]);
      } else {
        assert s[1..][1..] == PrintItems(items[1..]);
        assert Step(Step(inside, s[0]), s[1..][0]) == inside;
      }
    }
  }

  lemma StringPasses(items: seq<Item>, depth: int, floor: int)
    requires ItemsValid(items) && floor <= depth
    ensures Passes(Out(depth), PrintString(items), floor, Out(depth))
  {
    var inside := State(depth, true, false);
    ItemsPass(items, depth, floor);
    OneStep(Out(depth), '"', floor);
    OneStep(inside, '"', floor);
    Appended(Out(depth), "\"", inside, PrintItems(items), floor, inside);
    Appended(Out(depth), "\"" + PrintItems(items), inside, "\"", floor, Out(depth));
  }

  lemma OneStep(st: State, c: char, floor: int)
    requires Step(st, c).depth >= floor
    ensures Passes(st, [c], floor, Step(st, c))
  {
    assert [c][1..] == "";
    assert Fold(Step(st, c), "") == Step(st, c);
  }

  /** Appending a neutral text to a neutral text. */
  lemma Neutral(depth: int, a: string, b: string, floor: int)
    requires Passes(Out(depth), a, floor, Out(depth)) && Passes(Out(depth), b, floor, Out(depth))
    ensures Passes(Out(depth), a + b, floor, Out(depth))
  {
    Appended(Out(depth), a, Out(depth), b, floor, Out(depth));
  }

  /** A bracketed text: one that opens at this depth, keeps above it inside and closes to it again. */
  lemma Bracketed(depth: int, open: char, body: string, close: char, floor: int)
    requires (open == '{' && close == '}' && Passes(Out(depth + 1), body, floor, Out(depth + 1)))
          || (open == '[' && close == ']' && Passes(Out(depth), body, floor, Out(depth)))
    requires floor <= depth
    ensures Passes(Out(depth), [open] + body + [close], floor, Out(depth))
  {
    var inner := Step(Out(depth), open);
    OneStep(Out(depth), open, floor);
    OneStep(inner, close, floor);
    Appended(Out(depth), [open], inner, body, floor, inner);
    Appended(Out(depth), [open] + body, inner, [close], floor, Out(depth));
  }

  /** A valid value leaves the scanner as it found it and never takes it below where it started. */
  lemma {:induction false} ValuePasses(j: Json, depth: int, floor: int)
    requires Valid(j) && floor <= depth
    ensures Passes(Out(depth), Print(j), floor, Out(depth))
    decreases j
  {
    hide Passes;
    match j
    case Plain(text) => HarmlessPasses(text, depth, floor);
    case Str(items) => StringPasses(items, depth, floor);
    case Arr(pad, elems) =>
      var body := if elems == [] then pad else PrintElems(elems);
      if elems == [] {
        HarmlessPasses(pad, depth, floor);
      } else {
        ElemsPass(elems, depth, floor);
      }
      Bracketed(depth, '[', body, ']', floor);
    case Obj(pad, members) =>
      InsidePasses(pad, members, depth + 1, floor);
      Bracketed(depth, '{', Inside(pad, members), '}', floor);
  }

  lemma {:induction false} ElemsPass(elems: seq<Elem>, depth: int, floor: int)
    requires elems != [] && floor <= depth
    requires forall i :: 0 <= i < |elems| ==> ElemValid(elems[i])
    ensures Passes(Out(depth), PrintElems(elems), floor, Out(depth))
    decreases elems, 0
  {
    hide Passes;
    var e := elems[0];
    assert ElemValid(e);
    HarmlessPasses(e.pre, depth, floor);
    ValuePasses(e.v, depth, floor);
    HarmlessPasses(e.post, depth, floor);
    Neutral(depth, e.pre, Print(e.v), floor);
    Neutral(depth, e.pre + Print(e.v), e.post, floor);
    if |elems| > 1 {
      ElemsPass(elems[1..], depth, floor);
      HarmlessPasses(",", depth, floor);
      Neutral(depth, ",", PrintElems(elems[1..]), floor);
      Neutral(depth, e.pre + Print(e.v) + e.post, "," + PrintElems(elems[1..]), floor);
    } else {
      assert PrintElems(elems) == e.pre + Print(e.v) + e.post;
    }
  }

  lemma {:induction false} MembersPass(members: seq<Member>, depth: int, floor: int)
    requires members != [] && floor <= depth
    requires forall i :: 0 <= i < |members| ==> MemberValid(members[i])
    ensures Passes(Out(depth), PrintMembers(members), floor, Out(depth))
    decreases members, 0
  {
    hide Passes;
    var m := members[0];
    assert MemberValid(m);
    HarmlessPasses(m.pre, depth, floor);
    StringPasses(m.key, depth, floor);
    HarmlessPasses(m.mid, depth, floor);
    ValuePasses(m.v, depth, floor);
    HarmlessPasses(m.post, depth, floor);
    var k := m.pre + PrintString(m.key);
    Neutral(depth, m.pre, PrintString(m.key), floor);
    Neutral(depth, k, m.mid, floor);
    Neutral(depth, k + m.mid, Print(m.v), floor);
    Neutral(depth, k + m.mid + Print(m.v), m.post, floor);
    if |members| > 1 {
      MembersPass(members[1..], depth, floor);
      HarmlessPasses(",", depth, floor);
      Neutral(depth, ",", PrintMembers(members[1..]), floor);
      Neutral(depth, k + m.mid + Print(m.v) + m.post, "," + PrintMembers(members[1..]), floor);
    } else {
      assert PrintMembers(members) == k + m.mid + Print(m.v) + m.post;
    }
  }

  lemma {:induction false} InsidePasses(pad: string, members: seq<Member>, depth: int, floor: int)
    requires Harmless(pad) && floor <= depth
    requires forall i :: 0 <= i < |members| ==> MemberValid(members[i])
    ensures Passes(Out(depth), Inside(pad, members), floor, Out(depth))
    decreases members, 1
  {
    if members == [] {
      HarmlessPasses(pad, depth, floor);
    } else {
      MembersPass(members, depth, floor);
    }
  }

  // ---------------------------------------------------------------------------
  // The printed object comes back
  // ---------------------------------------------------------------------------

  lemma {:induction false} ScanPast(st: State, a: string, b: string, to: State)
    requires Passes(st, a, 1, to)
    ensures Scan(st, a + b) == Shift(Scan(to, b), |a|)
    decreases |a|
  {
    if a == "" {
      assert a + b == b;
    } else {
      assert (a + b)[1..] == a[1..] + b;
      ScanPast(Step(st, a[0]), a[1..], b, to);
    }
  }

  lemma ObjectScans(o: Json, suffix: string)
    requires Valid(o) && o.Obj?
    ensures Scan(START, Print(o) + suffix) == Some(|Print(o)|)
  {
    hide Passes;
    var body := Inside(o.pad, o.members);
    var s := Print(o) + suffix;
    InsidePasses(o.pad, o.members, 1, 1);
    assert s[1..] == body + ("}" + suffix);
    assert Step(START, s[0]) == Out(1);
    ScanPast(Out(1), body, "}" + suffix, Out(1));
  }

  lemma {:induction false} IndexOfFirst(prefix: string, c: char, rest: string)
    requires c !in prefix && rest != "" && rest[0] == c
    ensures IndexOf(prefix + rest, c) == Some(|prefix|)
  {
    if prefix == "" {
      assert prefix + rest == rest;
    } else {
      assert prefix[0] in prefix;
      assert (prefix + rest)[1..] == prefix[1..] + rest;
      IndexOfFirst(prefix[1..], c, rest);
    }
  }

  /**
   * The inversion: after any text without an opening brace and before any text at all, the extractor returns
   * exactly the text of the object that was printed.
   */
  lemma PrintedObjectIsExtracted(prefix: string, o: Json, suffix: string)
    requires Valid(o) && o.Obj? && '{' !in prefix
    ensures Extract(prefix + Print(o) + suffix) == Some(Print(o))
  {
    hide Valid;
    var s := prefix + Print(o) + suffix;
    assert s == prefix + (Print(o) + suffix);
    IndexOfFirst(prefix, '{', Print(o) + suffix);
    ObjectScans(o, suffix);
    assert s[|prefix|..] == Print(o) + suffix;
    assert s[|prefix|..|prefix| + |Print(o)|] == Print(o);
  }

  lemma {:induction false} ScanIsPrefixStable(st: State, a: string, b: string)
    ensures Scan(st, a).Some? ==> Scan(st, a + b) == Scan(st, a)
    decreases |a|
  {
    if a != "" {
      assert (a + b)[1..] == a[1..] + b;
      ScanIsPrefixStable(Step(st, a[0]), a[1..], b);
    }
  }

  /** An object that is cut short is not extracted at all. */
  lemma CutObjectIsNotExtracted(prefix: string, o: Json, k: nat)
    requires Valid(o) && o.Obj? && '{' !in prefix && k < |Print(o)|
    ensures Extract(prefix + Print(o)[..k]) == None
  {
    hide Valid;
    var cut := Print(o)[..k];
    var s := prefix + cut;
    if k == 0 {
      assert s == prefix;
    } else {
      IndexOfFirst(prefix, '{', cut);
      assert s[|prefix|..] == cut;
      ScanWithin(START, cut);
      ScanIsPrefixStable(START, cut, Print(o)[k..]);
      assert cut + Print(o)[k..] == Print(o) + "";
      ObjectScans(o, "");
    }
  }

  // ---------------------------------------------------------------------------
  // The fence
  // ---------------------------------------------------------------------------

  predicate IsFence(s: string, i: int) {
    0 <= i && i + 3 <= |s| && s[i] == '`' && s[i + 1] == '`' && s[i + 2] == '`'
  }

  function FindFence(s: string, from: nat): (r: Option<nat>)
    ensures match r
            case Some(i) => from <= i && IsFence(s, i) && forall j :: from <= j < i ==> !IsFence(s, j)
            case None => forall j :: from <= j ==> !IsFence(s, j)
    decreases |s| - from
  {
    if from >= |s| then None
    else if IsFence(s, from) then Some(from)
    else FindFence(s, from + 1)
  }

  /** The first fence of a text and the first one after it. */
  function FencePair(s: string): (r: Option<(nat, nat)>)
    ensures r.Some? ==> r.value.0 + 3 <= r.value.1 <= |s|
  {
    match FindFence(s, 0)
    case None => None
    case Some(p) =>
      match FindFence(s, p + 3)
      case None => None
      case Some(c) => Some((p, c))
  }

  /** What the two regular-expression engines disagree on: which characters are spaces, and which letters fold. */
  datatype Dialect = Dialect(space: char -> bool, letter: (char, nat) -> bool)

  ghost predicate Sane(d: Dialect) {
    && (forall c :: d.space(c) ==> c !in "{}\"\\`")
    && (forall c, k: nat :: d.letter(c, k) ==> c !in "{}\"\\`" && !d.space(c))
  }

  predicate IsTag(d: Dialect, t: string) {
    |t| == 4 && forall k: nat :: k < 4 ==> d.letter(t[k], k)
  }

  predicate AllSpace(d: Dialect, t: string) {
    forall i :: 0 <= i < |t| ==> d.space(t[i])
  }

  function SkipSpace(d: Dialect, s: string, from: nat): (q: nat)
    requires from <= |s|
    ensures from <= q <= |s| && AllSpace(d, s[from..q]) && (q < |s| ==> !d.space(s[q]))
    decreases |s| - from
  {
    if from < |s| && d.space(s[from]) then
      var q := SkipSpace(d, s, from + 1);
      assert s[from..q] == [s[from]] + s[from + 1..q];
      q
    else from
  }

  function SkipTag(d: Dialect, s: string, from: nat): nat
    requires from <= |s|
  {
    if from + 4 <= |s| && IsTag(d, s[from..from + 4]) then from + 4 else from
  }

  datatype Capture = Capture(open: nat, from: nat, to: nat)

  /** The first fence, the first one after it, and what the optional tag and the spaces leave in between. */
  function Fenced(d: Dialect, s: string): Option<Capture> {
    match FencePair(s)
    case None => None
    case Some((p, c)) => Some(Capture(p, SkipSpace(d, s, SkipTag(d, s, p + 3)), c))
  }

  /** A match of three backticks, an optional tag, spaces, anything, three backticks. */
  predicate Matches(d: Dialect, s: string, m: Capture) {
    && m.open + 3 <= m.from <= m.to
    && IsFence(s, m.open) && IsFence(s, m.to)
    && var intro := s[m.open + 3..m.from];
       AllSpace(d, intro) || (|intro| >= 4 && IsTag(d, intro[..4]) && AllSpace(d, intro[4..]))
  }

  /** The engine's order of preference: leftmost, then the greedy tag and spaces, then the lazy group. */
  predicate Preferred(a: Capture, b: Capture) {
    a.open < b.open || (a.open == b.open && (b.from < a.from || (a.from == b.from && a.to <= b.to)))
  }

  lemma NoTicks(d: Dialect, s: string, from: nat)
    requires Sane(d) && from <= |s|
    ensures from <= SkipTag(d, s, from) <= |s|
    ensures '`' !in s[from..SkipSpace(d, s, SkipTag(d, s, from))]
    ensures '{' !in s[from..SkipSpace(d, s, SkipTag(d, s, from))]
  {
    var a := SkipTag(d, s, from);
    var q := SkipSpace(d, s, a);
    forall i | from <= i < q ensures s[i] !in "{}\"\\`" {
      if i < a {
        assert s[from..from + 4][i - from] == s[i];
        assert d.letter(s[from..from + 4][i - from], i - from);
      } else {
        assert s[a..q][i - a] == s[i];
      }
    }
  }

  lemma {:induction false} SkipSpaceIsLongest(d: Dialect, s: string, from: nat, to: nat)
    requires from <= to <= |s| && AllSpace(d, s[from..to])
    ensures to <= SkipSpace(d, s, from)
    decreases |s| - from
  {
    if from < to {
      assert d.space(s[from..to][0]) && s[from..to][0] == s[from];
      assert s[from..to][1..] == s[from + 1..to];
      SkipSpaceIsLongest(d, s, from + 1, to);
    }
  }

  lemma SlicesOf(s: string, start: nat, to: nat)
    requires start + 4 <= to <= |s|
    ensures s[start..to][..4] == s[start..start + 4] && s[start..to][4..] == s[start + 4..to]
  {
  }

  /** A tag leaves no way to read the introduction as spaces only, unless it is empty. */
  lemma TagOrSpaces(d: Dialect, s: string, start: nat, to: nat)
    requires Sane(d) && start <= to <= |s| && SkipTag(d, s, start) != start
    ensures AllSpace(d, s[start..to]) ==> to == start
  {
    TagIsNotSpace(d, s, start);
    if start < to {
      assert s[start..to][0] == s[start];
    }
  }

  lemma GreedyIsLongest(d: Dialect, s: string, m: Capture)
    requires Sane(d) && Matches(d, s, m)
    ensures m.from <= SkipSpace(d, s, SkipTag(d, s, m.open + 3))
  {
    hide Sane, SkipSpace;
    var start := m.open + 3;
    var intro := s[start..m.from];
    if AllSpace(d, intro) {
      SkipSpaceIsLongest(d, s, start, m.from);
      if SkipTag(d, s, start) != start {
        TagOrSpaces(d, s, start, m.from);
      }
    } else {
      SlicesOf(s, start, m.from);
      SkipSpaceIsLongest(d, s, start + 4, m.from);
    }
  }

  lemma TagIsNotSpace(d: Dialect, s: string, start: nat)
    requires Sane(d) && start <= |s|
    ensures SkipTag(d, s, start) != start ==> start < |s| && !d.space(s[start])
  {
    if SkipTag(d, s, start) != start {
      var tag := s[start..start + 4];
      assert d.letter(tag[0], 0) && tag[0] == s[start];
    }
  }

  lemma NoBetterMatch(d: Dialect, s: string, best: Capture, m: Capture)
    requires Sane(d) && Fenced(d, s) == Some(best) && Matches(d, s, m)
    ensures Preferred(best, m)
  {
    hide Sane, SkipSpace, SkipTag, IsTag, AllSpace;
    if m.open == best.open {
      GreedyIsLongest(d, s, m);
    }
  }

  /** `Fenced` is the regular expression's match: it finds the preferred one exactly when there is any. */
  lemma FencedIsThePreferredMatch(d: Dialect, s: string)
    requires Sane(d)
    ensures match Fenced(d, s)
      case None => forall m :: !Matches(d, s, m)
      case Some(best) => Matches(d, s, best) && forall m :: Matches(d, s, m) ==> Preferred(best, m)
  {
    var r := Fenced(d, s);
    if r.Some? {
      var best := r.value;
      NoTicks(d, s, best.open + 3);
      TicksDoNotSkip(s, best.open + 3, best.from, best.to);
      IntroOf(d, s, best.open + 3);
      forall m | Matches(d, s, m) ensures Preferred(best, m) {
        NoBetterMatch(d, s, best, m);
      }
    }
  }

  lemma TicksDoNotSkip(s: string, start: nat, q: nat, c: nat)
    requires start <= q <= |s| && '`' !in s[start..q] && start <= c && IsFence(s, c)
    ensures q <= c
  {
    forall i | start <= i < q ensures s[i] != '`' {
      assert s[start..q][i - start] == s[i];
    }
  }

  lemma IntroOf(d: Dialect, s: string, start: nat)
    requires start <= |s|
    ensures start <= SkipTag(d, s, start)
    ensures var intro := s[start..SkipSpace(d, s, SkipTag(d, s, start))];
      AllSpace(d, intro) || (|intro| >= 4 && IsTag(d, intro[..4]) && AllSpace(d, intro[4..]))
  {
    var a := SkipTag(d, s, start);
    var q := SkipSpace(d, s, a);
    if a == start + 4 {
      assert s[start..q][..4] == s[start..a];
      assert s[start..q][4..] == s[a..q];
    }
  }

  function StripFence(d: Dialect, raw: string): string
    requires Sane(d)
  {
    match Fenced(d, raw)
    case None => raw
    case Some(m) =>
      NoTicks(d, raw, m.open + 3);
      TicksDoNotSkip(raw, m.open + 3, m.from, m.to);
      raw[m.from..m.to]
  }

  /** The four letters at their places, in either case if the dialect folds them so. */
  predicate Tagged(d: Dialect, t: string) {
    |t| == 4 && d.letter(t[0], 0) && d.letter(t[1], 1) && d.letter(t[2], 2) && d.letter(t[3], 3)
  }

  /** A text that neither begins like an introduction nor holds or ends in what could be a fence. */
  predicate PlainText(d: Dialect, body: string) {
    && body != "" && !d.space(body[0]) && body[|body| - 1] != '`'
    && (|body| >= 4 ==> !Tagged(d, body[..4]))
    && forall i :: 0 <= i < |body| ==> !IsFence(body, i)
  }

  lemma NoFenceBefore(d: Dialect, intro: string, body: string, s: string, j: nat)
    requires PlainText(d, body) && s == "```" + intro + body + "```" && '`' !in intro
    requires 3 <= j < 3 + |intro| + |body|
    ensures !IsFence(s, j)
  {
    var h := 3 + |intro|;
    if j < h {
      assert s[j] == intro[j - 3];
    } else {
      assert forall i :: h <= i < h + |body| ==> s[i] == body[i - h];
      assert !IsFence(body, j - h);
      assert s[h + |body| - 1] != '`';
    }
  }

  lemma {:induction false} SpacesAreSkipped(d: Dialect, s: string, a: nat, h: nat)
    requires a <= h < |s| && !d.space(s[h]) && forall i :: a <= i < h ==> d.space(s[i])
    ensures SkipSpace(d, s, a) == h
    decreases h - a
  {
    if a < h {
      SpacesAreSkipped(d, s, a + 1, h);
    }
  }

  lemma TagIsSkipped(d: Dialect, tag: string, rest: string)
    requires Tagged(d, tag)
    ensures SkipTag(d, "```" + tag + rest, 3) == 7
  {
    assert ("```" + tag + rest)[3..7] == tag;
  }

  /** The four characters after the fence, when there is no tag: a space, or text that is no tag. */
  lemma NoTagIsSkipped(d: Dialect, spaces: string, body: string, s: string)
    requires Sane(d) && AllSpace(d, spaces) && PlainText(d, body) && s == "```" + spaces + body + "```"
    ensures SkipTag(d, s, 3) == 3
  {
    var four := s[3..7];
    if spaces != "" {
      assert four[0] == spaces[0];
    } else if |body| < 4 {
      assert four[|body|] == '`';
    } else {
      assert four == body[..4];
    }
  }

  /** Wrapping a plain text in fences, with or without a tag and spaces, and stripping them gives the text back. */
  lemma StripUndoesFencing(d: Dialect, tag: string, spaces: string, body: string)
    requires Sane(d) && (tag == "" || Tagged(d, tag)) && AllSpace(d, spaces) && PlainText(d, body)
    ensures StripFence(d, "```" + tag + spaces + body + "```") == body
  {
    var s := "```" + tag + spaces + body + "```";
    var a, h, c := 3 + |tag|, 3 + |tag| + |spaces|, 3 + |tag| + |spaces| + |body|;
    FencesOfPlain(d, tag + spaces, body, s);
    if tag == "" {
      assert s == "```" + spaces + body + "```";
      NoTagIsSkipped(d, spaces, body, s);
    } else {
      assert s == "```" + tag + (spaces + body + "```");
      TagIsSkipped(d, tag, spaces + body + "```");
    }
    assert forall i :: a <= i < h ==> s[i] == spaces[i - a];
    assert s[h] == body[0] && s[h..c] == body;
    hide Sane, SkipTag, IsFence, FencePair;
    SpacesAreSkipped(d, s, a, h);
  }

  lemma FencesOfPlain(d: Dialect, intro: string, body: string, s: string)
    requires PlainText(d, body) && s == "```" + intro + body + "```" && '`' !in intro
    ensures FencePair(s) == Some((0, 3 + |intro| + |body|))
  {
    var c := 3 + |intro| + |body|;
    assert IsFence(s, 0) && IsFence(s, c);
    forall j | 3 <= j < c ensures !IsFence(s, j) {
      NoFenceBefore(d, intro, body, s, j);
    }
  }

  /** What is between the fences before any tag or space is dropped: no dialect decides it. */
  function Core(raw: string): string {
    match FencePair(raw)
    case None => raw
    case Some((p, c)) => raw[p + 3..c]
  }

  /** Where the first brace is known, extraction is the scan from it. */
  lemma ExtractAt(prefix: string, s: string)
    requires '{' !in prefix && s != "" && s[0] == '{'
    ensures match Scan(START, s)
            case None => Extract(prefix + s) == None
            case Some(k) => k <= |s| && Extract(prefix + s) == Some(s[..k])
  {
    hide Scan, IndexOf, Extract;
    IndexOfFirst(prefix, '{', s);
    assert (prefix + s)[|prefix|..] == s;
    ExtractFrom(prefix + s, |prefix|);
  }

  lemma NothingBefore(prefix: string, s: string)
    requires '{' !in prefix
    ensures Extract(prefix + s) == Extract(s)
  {
    if IndexOf(s, '{').Some? {
      var i := IndexOf(s, '{').value;
      hide Extract, IndexOf, Scan;
      assert prefix + s == (prefix + s[..i]) + s[i..] && s == s[..i] + s[i..];
      ExtractAt(prefix + s[..i], s[i..]);
      ExtractAt(s[..i], s[i..]);
    }
  }

  lemma StripFenceIsCore(d: Dialect, raw: string)
    requires Sane(d)
    ensures Extract(StripFence(d, raw)) == Extract(Core(raw))
  {
    if Fenced(d, raw).Some? {
      var m := Fenced(d, raw).value;
      NoTicks(d, raw, m.open + 3);
      TicksDoNotSkip(raw, m.open + 3, m.from, m.to);
      assert StripFence(d, raw) == raw[m.from..m.to] && Core(raw) == raw[m.open + 3..m.to];
      hide Sane, StripFence, Core, Fenced, Extract;
      NothingBefore(raw[m.open + 3..m.from], raw[m.from..m.to]);
      Joins(raw, m.open + 3, m.from, m.to);
    }
  }

  lemma Joins(s: string, a: nat, b: nat, c: nat)
    requires a <= b <= c <= |s|
    ensures s[a..c] == s[a..b] + s[b..c]
  {
  }

  function TrimEnd(d: Dialect, s: string): (t: string)
    ensures t <= s && AllSpace(d, s[|t|..])
    decreases |s|
  {
    if s != "" && d.space(s[|s| - 1]) then
      var t := TrimEnd(d, s[..|s| - 1]);
      assert s[|t|..] == s[..|s| - 1][|t|..] + [s[|s| - 1]];
      t
    else s
  }

  function Trim(d: Dialect, s: string): string {
    TrimEnd(d, s[SkipSpace(d, s, 0)..])
  }

  /** Spaces after an object cannot close it, and cannot open one. */
  lemma NothingAfter(s: string, suffix: string)
    requires '{' !in suffix && '}' !in suffix
    ensures Extract(s + suffix) == Extract(s)
  {
    if IndexOf(s, '{').Some? {
      var i := IndexOf(s, '{').value;
      hide Extract, IndexOf, Scan;
      assert s + suffix == s[..i] + (s[i..] + suffix) && s == s[..i] + s[i..];
      ExtractAt(s[..i], s[i..] + suffix);
      ExtractAt(s[..i], s[i..]);
      ScanSame(s[i..], suffix);
      if Scan(START, s[i..]).Some? {
        var k := Scan(START, s[i..]).value;
        assert (s[i..] + suffix)[..k] == s[i..][..k];
      }
    } else {
      assert '{' !in s + suffix;
    }
  }

  lemma {:induction false} SuffixKeepsOpen(st: State, suffix: string)
    requires '}' !in suffix && st.depth > 0
    ensures Scan(st, suffix) == None
    decreases |suffix|
  {
    if suffix != "" {
      assert suffix[0] in suffix;
      SuffixKeepsOpen(Step(st, suffix[0]), suffix[1..]);
    }
  }

  lemma {:induction false} ScanSameFrom(st: State, s: string, suffix: string)
    requires '}' !in suffix && st.depth > 0
    ensures Scan(st, s + suffix) == Scan(st, s)
    decreases |s|
  {
    if s == "" {
      assert s + suffix == suffix;
      SuffixKeepsOpen(st, suffix);
    } else {
      assert (s + suffix)[1..] == s[1..] + suffix;
      if Step(st, s[0]).depth != 0 {
        ScanSameFrom(Step(st, s[0]), s[1..], suffix);
      }
    }
  }

  lemma ScanSame(s: string, suffix: string)
    requires s != "" && s[0] == '{' && '}' !in suffix
    ensures Scan(START, s + suffix) == Scan(START, s)
  {
    assert (s + suffix)[1..] == s[1..] + suffix;
    ScanSameFrom(Step(START, s[0]), s[1..], suffix);
  }

  lemma SpacesAreHarmless(d: Dialect, s: string)
    requires Sane(d) && AllSpace(d, s)
    ensures '{' !in s && '}' !in s
  {
  }

  lemma TrimChangesNothing(d: Dialect, s: string)
    requires Sane(d)
    ensures Extract(Trim(d, s)) == Extract(s)
  {
    hide Extract;
    var q := SkipSpace(d, s, 0);
    var rest := s[q..];
    var t := TrimEnd(d, rest);
    SpacesAreHarmless(d, s[0..q]);
    SpacesAreHarmless(d, rest[|t|..]);
    assert rest == t + rest[|t|..];
    NothingAfter(t, rest[|t|..]);
    assert s == s[0..q] + rest;
    NothingBefore(s[0..q], rest);
  }

  /** The runtime's reading of a reply, up to the text handed to the JSON parser. */
  method ParseStructured(d: Dialect, raw: string) returns (r: Option<string>)
    requires Sane(d)
    ensures r == Extract(Core(raw))
  {
    var stripped := StripFence(d, raw);
    var text := Trim(d, stripped);
    StripFenceIsCore(d, raw);
    TrimChangesNothing(d, stripped);
    if |text| == 0 {
      assert '{' !in text;
      return None;
    }
    r := ExtractJsonObject(text);
  }

  lemma BlankHasNothing(d: Dialect, raw: string)
    requires Sane(d) && Trim(d, raw) == ""
    ensures Extract(Core(raw)) == None
  {
    forall i | 0 <= i < |raw| ensures !IsFence(raw, i) && raw[i] != '{' {
      BlankAt(d, raw, i);
    }
  }

  lemma BlankAt(d: Dialect, raw: string, i: nat)
    requires Sane(d) && Trim(d, raw) == "" && i < |raw|
    ensures d.space(raw[i])
  {
    var q := SkipSpace(d, raw, 0);
    if i < q {
      assert raw[0..q][i] == raw[i];
    } else {
      assert raw[q..][0..][i - q] == raw[i];
    }
  }

  /** The evaluator's reading of the same reply, up to the span handed to its JSON parser. */
  method ParseReply(d: Dialect, raw: string) returns (r: Option<string>)
    requires Sane(d)
    ensures r == Extract(Core(raw))
  {
    hide Scan, Reached, IndexOf, Core;
    if raw == "" || Trim(d, raw) == "" {
      BlankHasNothing(d, raw);
      return None;
    }
    var text := StripFence(d, raw);
    StripFenceIsCore(d, raw);
    hide StripFence;
    var found := IndexOf(text, '{');
    if found.None? {
      return None;
    }
    var start := found.value;
    var depth, inString, escaped := 0, false, false;
    Begins(text, start);
    for index := start to |text|
      invariant Reached(text, start, index, State(depth, inString, escaped))
      invariant if index == start then index < |text| && text[index] == '{' && State(depth, inString, escaped) == START else depth > 0
    {
      var ch := text[index];
      Advance(text, start, index, State(depth, inString, escaped));
      if escaped {
        escaped := false;
        continue;
      }
      if ch == '\\' {
        escaped := true;
        continue;
      }
      if ch == '"' {
        inString := !inString;
        continue;
      }
      if inString {
        continue;
      }
      if ch == '{' {
        depth := depth + 1;
      } else if ch == '}' {
        depth := depth - 1;
        if depth == 0 {
          return Some(text[start..index + 1]);
        }
      }
    }
    Unclosed(text, start, State(depth, inString, escaped));
    return None;
  }

  // ---------------------------------------------------------------------------
  // Replies
  // ---------------------------------------------------------------------------

  /** The text stands at position h. */
  predicate At(s: string, h: nat, text: string) {
    h + |text| <= |s| && forall i :: 0 <= i < |text| ==> s[h + i] == text[i]
  }

  /** No fence stands in the text before it, so the first one starts at most two backticks early. */
  lemma OpeningFence(s: string, before: string, p: nat)
    requires At(s, 0, before) && FindFence(before, 0).None?
    requires FindFence(s, 0) == Some(p) && IsFence(s, |before|)
    ensures |before| - 2 <= p <= |before|
  {
    assert p + 3 <= |before| ==> IsFence(before, p);
  }

  lemma NoFenceInIntro(s: string, open: nat, p: nat, h: nat)
    requires open - 2 <= p <= open && open + 3 <= h < |s|
    requires forall i :: open + 3 <= i <= h ==> s[i] != '`'
    ensures forall i :: p + 3 <= i < h ==> !IsFence(s, i)
  {
    forall i | p + 3 <= i < h ensures !IsFence(s, i) {
      var at := if i < open + 3 then open + 3 else i;
      assert s[at] != '`' && i <= at <= i + 2;
    }
  }

  /** Scanning for a fence across a text that does not end in a backtick finds the text's own first one, or goes past it. */
  lemma FenceAround(s: string, text: string, h: nat, from: nat)
    requires At(s, h, text) && text != "" && text[|text| - 1] != '`'
    requires from <= h && forall i :: from <= i < h ==> !IsFence(s, i)
    ensures match FindFence(text, 0)
            case Some(k) => k < |text| && FindFence(s, from) == Some(h + k)
            case None => FindFence(s, from).Some? ==> FindFence(s, from).value >= h + |text|
  {
    forall i | h <= i < h + |text| ensures IsFence(s, i) <==> IsFence(text, i - h) {
      if i + 3 > h + |text| {
        assert s[h + (|text| - 1)] != '`';
      }
    }
    if FindFence(text, 0).Some? {
      var k := FindFence(text, 0).value;
      assert IsFence(text, k) && IsFence(s, h + k);
      assert forall i :: from <= i < h + k ==> !IsFence(s, i);
    }
  }

  lemma ObjectText(o: Json)
    requires o.Obj?
    ensures |Print(o)| >= 2 && Print(o)[0] == '{' && Print(o)[|Print(o)| - 1] == '}'
  {
  }

  /** The object's text, the place it stands at, and the fences around it. */
  ghost predicate FencedAt(s: string, text: string, h: nat, p: nat, c: nat) {
    && p + 3 <= h && At(s, h, text) && '{' !in s[p + 3..h]
    && FindFence(s, 0) == Some(p) && FindFence(s, p + 3) == Some(c) && c <= |s|
    && match FindFence(text, 0)
       case None => h + |text| <= c
       case Some(k) => k < |text| && c == h + k
  }

  lemma FencesAround(before: string, info: string, text: string, rest: string) returns (p: nat, c: nat)
    requires text != "" && text[0] == '{' && text[|text| - 1] != '`'
    requires FindFence(before, 0).None? && '`' !in info && '{' !in info && FindFence(rest, 0).Some?
    ensures FencedAt(before + "```" + info + text + rest, text, |before| + 3 + |info|, p, c)
  {
    hide At, FindFence, IsFence;
    var s := before + "```" + info + text + rest;
    var h := |before| + 3 + |info|;
    Located(before, info, text, rest);
    p := FindFence(s, 0).value;
    OpeningFence(s, before, p);
    NoFenceInIntro(s, |before|, p, h);
    FenceAround(s, text, h, p + 3);
    FenceAhead(s, p + 3, h + |text| + FindFence(rest, 0).value);
    c := FindFence(s, p + 3).value;
    FenceEnds(s, c);
    IntroHasNoBrace(s, |before|, p, h);
  }

  lemma FenceEnds(s: string, c: nat)
    requires IsFence(s, c)
    ensures c <= |s|
  {
  }

  lemma WholeObjectIsExtracted(s: string, o: Json, h: nat, p: nat, c: nat)
    requires Valid(o) && o.Obj? && FencedAt(s, Print(o), h, p, c) && FindFence(Print(o), 0).None?
    ensures Extract(Core(s)) == Some(Print(o))
  {
    hide Valid, Extract, Print, At, FindFence;
    SlicePast(s, Print(o), h, p + 3, c);
    PrintedObjectIsExtracted(s[p + 3..h], o, s[h + |Print(o)|..c]);
  }

  lemma CutObjectIsLost(s: string, o: Json, h: nat, p: nat, c: nat)
    requires Valid(o) && o.Obj? && FencedAt(s, Print(o), h, p, c) && FindFence(Print(o), 0).Some?
    ensures Extract(Core(s)) == None
  {
    hide Valid, Extract, Print, At, FindFence;
    var k := FindFence(Print(o), 0).value;
    SliceInto(s, Print(o), h, p + 3, k);
    CutObjectIsNotExtracted(s[p + 3..h], o, k);
  }

  /**
   * A fenced object. Nothing before the fence matters, braces included, as long as it holds no fence itself;
   * the tag and spaces hold no brace. The object comes back exactly when its own text holds no fence;
   * otherwise the reply is read as holding no object at all.
   */
  lemma FencedObject(before: string, info: string, o: Json, rest: string)
    requires Valid(o) && o.Obj?
    requires FindFence(before, 0).None? && '`' !in info && '{' !in info && FindFence(rest, 0).Some?
    ensures Extract(Core(before + "```" + info + Print(o) + rest))
         == if FindFence(Print(o), 0).None? then Some(Print(o)) else None
  {
    hide Valid, Extract, Core, FencedAt, FindFence;
    var s, h := before + "```" + info + Print(o) + rest, |before| + 3 + |info|;
    ObjectText(o);
    hide Print;
    var p, c := FencesAround(before, info, Print(o), rest);
    if FindFence(Print(o), 0).None? {
      WholeObjectIsExtracted(s, o, h, p, c);
    } else {
      CutObjectIsLost(s, o, h, p, c);
    }
  }

  lemma SlicePast(s: string, text: string, h: nat, from: nat, to: nat)
    requires At(s, h, text) && from <= h && h + |text| <= to <= |s|
    ensures s[from..to] == s[from..h] + text + s[h + |text|..to]
  {
  }

  lemma SliceInto(s: string, text: string, h: nat, from: nat, k: nat)
    requires At(s, h, text) && from <= h && k <= |text|
    ensures s[from..h + k] == s[from..h] + text[..k]
  {
  }

  lemma FenceAhead(s: string, from: nat, at: nat)
    requires from <= at && IsFence(s, at)
    ensures FindFence(s, from).Some? && FindFence(s, from).value <= at
  {
  }

  lemma IntroHasNoBrace(s: string, open: nat, p: nat, h: nat)
    requires open - 2 <= p <= open && open + 3 <= h <= |s| && IsFence(s, open)
    requires forall i :: open + 3 <= i < h ==> s[i] != '{'
    ensures '{' !in s[p + 3..h]
  {
  }

  lemma Located(before: string, info: string, text: string, rest: string)
    requires '`' !in info && '{' !in info && FindFence(rest, 0).Some? && text != "" && text[0] == '{'
    ensures var s := before + "```" + info + text + rest;
      var h := |before| + 3 + |info|;
      && At(s, 0, before) && IsFence(s, |before|) && At(s, h, text)
      && (forall i :: |before| + 3 <= i <= h ==> s[i] != '`')
      && (forall i :: |before| + 3 <= i < h ==> s[i] != '{')
      && IsFence(s, h + |text| + FindFence(rest, 0).value)
      && FindFence(s, 0).Some?
  {
    var s := before + "```" + info + text + rest;
    var h := |before| + 3 + |info|;
    var k := FindFence(rest, 0).value;
    assert IsFence(rest, k);
    assert forall i :: 0 <= i < |info| ==> s[|before| + 3 + i] == info[i] && info[i] in info;
    forall i | |before| + 3 <= i < h ensures s[i] != '`' && s[i] != '{' {
      assert s[|before| + 3 + (i - |before| - 3)] == info[i - |before| - 3];
    }
    var at := h + |text| + k;
    assert s[at] == rest[k] && s[at + 1] == rest[k + 1] && s[at + 2] == rest[k + 2];
    assert IsFence(s, |before|);
  }

  /** The opening fence stands before the object: it is read whole up to the closing one, or not at all. */
  lemma AfterOpening(prefix: string, o: Json, suffix: string, from: nat, to: nat)
    requires Valid(o) && o.Obj? && from <= |prefix| && '{' !in prefix[from..]
    requires var s := prefix + Print(o) + suffix; from <= to <= |s|
    ensures Extract((prefix + Print(o) + suffix)[from..to])
         == if |prefix| + |Print(o)| <= to then Some(Print(o)) else None
  {
    hide Valid, Extract, Print;
    var s, h := prefix + Print(o) + suffix, |prefix|;
    if h + |Print(o)| <= to {
      assert s[from..to] == prefix[from..] + Print(o) + suffix[..to - h - |Print(o)|];
      PrintedObjectIsExtracted(prefix[from..], o, suffix[..to - h - |Print(o)|]);
    } else if h <= to {
      assert s[from..to] == prefix[from..] + Print(o)[..to - h];
      CutObjectIsNotExtracted(prefix[from..], o, to - h);
    } else {
      assert s[from..to] + prefix[to..] == prefix[from..];
      NoBraceNoObject(s[from..to]);
    }
  }

  lemma NoBraceNoObject(s: string)
    requires '{' !in s
    ensures Extract(s) == None
  {
  }

  lemma {:induction false} CountConcat(a: string, b: string, c: char)
    ensures Count(a + b, c) == Count(a, c) + Count(b, c)
  {
    if a == "" {
      assert a + b == b;
    } else {
      assert (a + b)[1..] == a[1..] + b;
      CountConcat(a[1..], b, c);
    }
  }

  lemma CountSlice(s: string, from: nat, to: nat, c: char)
    requires from <= to <= |s|
    ensures Count(s[from..to], c) <= Count(s[from..], c)
  {
    CountConcat(s[from..to], s[to..], c);
    assert s[from..to] + s[to..] == s[from..];
  }

  lemma {:induction false} NoneToCount(s: string, c: char)
    requires c !in s
    ensures Count(s, c) == 0
  {
    if s != "" {
      NoneToCount(s[1..], c);
    }
  }

  lemma ExtractCounts(s: string, c: char)
    ensures Extract(s).Some? ==> Count(Extract(s).value, c) <= Count(s, c)
  {
    hide Closes, Open, Count;
    ExtractIsShortestBalanced(s);
    if Extract(s).Some? {
      hide Extract, IndexOf;
      var i, r := IndexOf(s, '{').value, Extract(s).value;
      CountConcat(s[..i], s[i..], c);
      assert s == s[..i] + s[i..];
      CountSlice(s[i..], 0, |r|, c);
      assert s[i..][0..|r|] == r && s[i..][0..] == s[i..];
    }
  }

  /** The text from after the object's own brace on has too few braces to hold the object. */
  lemma AfterItsBrace(prefix: string, o: Json, suffix: string, from: nat, to: nat)
    requires o.Obj? && '{' !in suffix
    requires var s := prefix + Print(o) + suffix; |prefix| < from <= to <= |s|
    ensures Extract((prefix + Print(o) + suffix)[from..to]) != Some(Print(o))
  {
    ObjectText(o);
    hide Extract, Print, Count;
    var s, h, text := prefix + Print(o) + suffix, |prefix|, Print(o);
    ExtractCounts(s[from..to], '{');
    CountSlice(s, from, to, '{');
    CountConcat(s[h + 1..from], s[from..], '{');
    assert s == prefix + text + suffix && h == |prefix|;
    AfterFirst(prefix, text, suffix);
    Splits(s, h + 1, from);
    CountConcat(text[1..], suffix, '{');
    NoneToCount(suffix, '{');
    CountConcat("{", text[1..], '{');
    assert "{" + text[1..] == text;
    CountOne();
  }

  lemma Splits(s: string, a: nat, b: nat)
    requires a <= b <= |s|
    ensures s[a..b] + s[b..] == s[a..]
  {
  }

  lemma AfterFirst(prefix: string, text: string, suffix: string)
    requires text != ""
    ensures (prefix + text + suffix)[|prefix| + 1..] == text[1..] + suffix
  {
  }

  lemma CountOne()
    ensures Count("{", '{') == 1
  {
    assert "{"[1..] == "";
  }

  /** Where an object among fences is read: from the opening fence on, if that stands before it. */
  lemma ObjectAmongFences(prefix: string, o: Json, suffix: string)
    requires Valid(o) && o.Obj?
    ensures var s := prefix + Print(o) + suffix;
      match FencePair(s)
      case None => '{' !in prefix ==> Extract(Core(s)) == Some(Print(o))
      case Some((p, c)) =>
        if p + 3 <= |prefix| then
          '{' !in prefix[p + 3..] ==> Extract(Core(s)) == if |prefix| + |Print(o)| <= c then Some(Print(o)) else None
        else '{' !in suffix ==> Extract(Core(s)) != Some(Print(o))
  {
    hide Valid, Extract, Print, FencePair;
    var s := prefix + Print(o) + suffix;
    match FencePair(s) {
      case None =>
        if '{' !in prefix {
          PrintedObjectIsExtracted(prefix, o, suffix);
        }
      case Some((p, c)) =>
        if p + 3 <= |prefix| {
          if '{' !in prefix[p + 3..] {
            AfterOpening(prefix, o, suffix, p + 3, c);
          }
        } else if '{' !in suffix {
          AfterItsBrace(prefix, o, suffix, p + 3, c);
        }
    }
  }

  /** An object among prose without an opening brace comes back exactly when no pair of fences is found, or one around it. */
  lemma ProseReplyIff(prefix: string, o: Json, suffix: string)
    requires Valid(o) && o.Obj? && '{' !in prefix && '{' !in suffix
    ensures var s := prefix + Print(o) + suffix;
      Extract(Core(s)) == Some(Print(o)) <==>
        match FencePair(s)
        case None => true
        case Some((p, c)) => p + 3 <= |prefix| && |prefix| + |Print(o)| <= c
  {
    hide Valid, Extract, Print, FencePair, Core;
    ObjectAmongFences(prefix, o, suffix);
  }

  /** A reply that is one printed object is read back exactly when its own text does not hold a pair of fences. */
  lemma WholeReplyIff(o: Json)
    requires Valid(o) && o.Obj?
    ensures Extract(Core(Print(o))) == Some(Print(o)) <==> FencePair(Print(o)) == None
  {
    hide Valid, Extract, Print, FencePair, Core;
    ProseReplyIff("", o, "");
    assert "" + Print(o) + "" == Print(o);
  }
}
