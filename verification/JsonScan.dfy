/**
 tokens.cpp: the cleaning of a response body, and the search for the first balanced
 object in it.  The scanner counts braces outside strings; on any text that starts with a
 printed JSON object this finds exactly that object.
 */
module JsonScan {
  import opened Bytes
  import opened JsonText

  const NEWLINE: byte := 10
  const BOM: seq<byte> := [0xEF, 0xBB, 0xBF]
  const GUARD: seq<byte> := [41, 93, 125, 39]

  /** The characters that the scanner and the cleaning look for. */
  lemma CharactersAre()
    ensures QUOTE == '"' as int && BACKSLASH == '\\' as int && NEWLINE == '\n' as int
    ensures OPEN_BRACE == '{' as int && CLOSE_BRACE == '}' as int
    ensures GUARD == [')' as int, ']' as int, '}' as int, '\'' as int] && BOM == [0xEF, 0xBB, 0xBF]
  {
  }

  // ---------------------------------------------------------------- the scanner

  datatype Scan = Scan(depth: int, inStr: bool, esc: bool)

  const START: Scan := Scan(0, false, false)

  function Step(s: Scan, c: byte): Scan {
    if s.inStr then
      if s.esc then s.(esc := false)
      else if c == BACKSLASH then s.(esc := true)
      else if c == QUOTE then s.(inStr := false)
      else s
    else if c == QUOTE then s.(inStr := true)
    else if c == OPEN_BRACE then s.(depth := s.depth + 1)
    else if c == CLOSE_BRACE then s.(depth := s.depth - 1)
    else s
  }

  /** Whether c closes the outermost brace. */
  predicate Closes(s: Scan, c: byte) { !s.inStr && c == CLOSE_BRACE && s.depth == 1 }

  /** How many bytes of text the scanner reads up to the closing brace; 0 if it is not there. */
  function ClosedAfter(s: Scan, text: seq<byte>): (n: nat)
    ensures n <= |text|
    decreases |text|
  {
    if text == [] then 0
    else if Closes(s, text[0]) then 1
    else
      var n := ClosedAfter(Step(s, text[0]), text[1..]);
      if n == 0 then 0 else n + 1
  }

  /** The position of the first c, or |text|. */
  function Find(text: seq<byte>, c: byte): (i: nat)
    ensures i <= |text| && (i < |text| ==> text[i] == c) && c !in text[..i]
  {
    if text == [] || text[0] == c then 0
    else
      assert forall i :: 0 <= i < |text[1..]| ==> text[..i + 1] == [text[0]] + text[1..][..i];
      1 + Find(text[1..], c)
  }

  function FirstObject(text: seq<byte>): seq<byte> {
    var start := Find(text, OPEN_BRACE);
    var tail := text[start..];
    tail[..ClosedAfter(START, tail)]
  }

  /** tokens.cpp first_json_object */
  method FirstJsonObject(text: seq<byte>) returns (found: seq<byte>)
    ensures found == FirstObject(text)
  {
    var start := FindByte(text, OPEN_BRACE);
    if start == |text| {
      return [];
    }
    var s := START;
    ghost var tail := text[start..];
    for j := start to |text|
      invariant ClosedAfter(START, tail) ==
                (var n := ClosedAfter(s, text[j..]); if n == 0 then 0 else j - start + n)
    {
      assert text[j..][0] == text[j] && text[j..][1..] == text[j + 1..];
      if Closes(s, text[j]) {
        return text[start..j + 1];
      }
      s := Step(s, text[j]);
    }
    found := [];
  }

  method FindByte(text: seq<byte>, c: byte) returns (i: nat)
    ensures i == Find(text, c)
  {
    i := 0;
    while i < |text| && text[i] != c
      invariant i <= |text| && Find(text, c) == i + Find(text[i..], c)
    {
      assert text[i..][0] == text[i] && text[i..][1..] == text[i + 1..];
      i := i + 1;
    }
  }

  // ---------------------------------------------------------------- what the scanner passes over

  /** text takes the scanner from s to t, and does not close the outermost brace. */
  predicate Moves(s: Scan, text: seq<byte>, t: Scan)
    decreases |text|
  {
    if text == [] then s == t
    else !Closes(s, text[0]) && Moves(Step(s, text[0]), text[1..], t)
  }

  lemma {:induction false} MovesOn(s: Scan, a: seq<byte>, t: Scan, b: seq<byte>, u: Scan)
    requires Moves(s, a, t) && Moves(t, b, u)
    ensures Moves(s, a + b, u)
    decreases |a|
  {
    if a == [] {
      assert a + b == b;
    } else {
      assert (a + b)[1..] == a[1..] + b;
      MovesOn(Step(s, a[0]), a[1..], t, b, u);
    }
  }

  /** Behind a text that closes nothing, the search goes on where it stands. */
  lemma {:induction false} ClosedBehind(s: Scan, a: seq<byte>, t: Scan, b: seq<byte>)
    requires Moves(s, a, t)
    ensures var n := ClosedAfter(t, b); ClosedAfter(s, a + b) == if n == 0 then 0 else |a| + n
    decreases |a|
  {
    if a == [] {
      assert a + b == b;
    } else {
      assert (a + b)[1..] == a[1..] + b;
      ClosedBehind(Step(s, a[0]), a[1..], t, b);
    }
  }

  /** Outside a string, depth braces deep. */
  function At(depth: int): Scan { Scan(depth, false, false) }

  /** The bytes that the scanner looks at outside strings. */
  predicate Marks(c: byte) { c == QUOTE || c == OPEN_BRACE || c == CLOSE_BRACE }

  predicate Unmarked(text: seq<byte>) { forall i :: 0 <= i < |text| ==> !Marks(text[i]) }

  /** text closes no brace it did not open, wherever it stands inside an object. */
  ghost predicate Balanced(text: seq<byte>) {
    forall depth: nat :: depth >= 1 ==> Moves(At(depth), text, At(depth))
  }

  lemma {:induction false} UnmarkedMoves(text: seq<byte>, depth: int)
    requires Unmarked(text)
    ensures Moves(At(depth), text, At(depth))
  {
    if text != [] {
      UnmarkedMoves(text[1..], depth);
    }
  }

  lemma UnmarkedBalanced(text: seq<byte>)
    requires Unmarked(text)
    ensures Balanced(text)
  {
    forall depth: nat | depth >= 1 ensures Moves(At(depth), text, At(depth)) {
      UnmarkedMoves(text, depth);
    }
  }

  lemma Both(a: seq<byte>, b: seq<byte>)
    requires Balanced(a) && Balanced(b)
    ensures Balanced(a + b)
  {
    forall depth: nat | depth >= 1 ensures Moves(At(depth), a + b, At(depth)) {
      MovesOn(At(depth), a, At(depth), b, At(depth));
    }
  }

  lemma {:induction false} CharsMove(chars: seq<Char>, depth: int)
    ensures Moves(Scan(depth, true, false), PrintChars(chars), Scan(depth, true, false))
  {
    var inside := Scan(depth, true, false);
    if chars != [] {
      CharsMove(chars[1..], depth);
      var first := match chars[0] case Plain(p) => [p] case Escaped(b) => [BACKSLASH, b];
      CharMoves(chars[0], depth);
      MovesOn(inside, first, inside, PrintChars(chars[1..]), inside);
    }
  }

  lemma CharMoves(c: Char, depth: int)
    ensures var first := match c case Plain(p) => [p] case Escaped(b) => [BACKSLASH, b];
            Moves(Scan(depth, true, false), first, Scan(depth, true, false))
  {
    if c.Escaped? {
      var text := [BACKSLASH, c.b];
      assert text[1..] == [c.b] && text[1..][1..] == [];
    }
  }

  lemma StringBalanced(chars: seq<Char>)
    ensures Balanced(PrintString(chars))
  {
    forall depth: nat | depth >= 1 ensures Moves(At(depth), PrintString(chars), At(depth)) {
      var inside := Scan(depth, true, false);
      CharsMove(chars, depth);
      MovesOn(At(depth), [QUOTE], inside, PrintChars(chars), inside);
      MovesOn(At(depth), [QUOTE] + PrintChars(chars), inside, [QUOTE], At(depth));
    }
  }

  lemma ExponentUnmarked(e: Exponent)
    ensures Unmarked(PrintExponent(e))
  {
  }

  lemma NumberUnmarked(n: Json)
    requires n.Number?
    ensures Unmarked(PrintNumber(n))
  {
    if n.exp.Some? {
      ExponentUnmarked(n.exp.value);
    }
  }

  lemma BlanksBalanced(space: seq<blank>)
    ensures Balanced(space)
  {
    UnmarkedBalanced(space);
  }

  lemma {:induction false} ValueBalanced(v: Json)
    ensures Balanced(PrintValue(v))
    decreases v, 0
  {
    match v
    case Null => UnmarkedBalanced(PrintValue(v));
    case False => UnmarkedBalanced(PrintValue(v));
    case True => UnmarkedBalanced(PrintValue(v));
    case Number(_, _, _, _) => NumberUnmarked(v); UnmarkedBalanced(PrintValue(v));
    case Text(chars) => StringBalanced(chars);
    case Array(elements) =>
      ElementsBalanced(elements);
      UnmarkedBalanced([OPEN_BRACKET]);
      UnmarkedBalanced([CLOSE_BRACKET]);
      Both([OPEN_BRACKET], PrintElements(elements));
      Both([OPEN_BRACKET] + PrintElements(elements), [CLOSE_BRACKET]);
    case Nested(inner) =>
      ObjectBalanced(inner);
  }

  lemma {:induction false} ElementsBalanced(es: Elements)
    ensures Balanced(PrintElements(es))
  {
    match es
    case NoElements(space) => BlanksBalanced(space);
    case LastElement(before, value, after) =>
      SpacedBalanced(before, value, after);
    case Element(before, value, after, rest) =>
      SpacedBalanced(before, value, after);
      ElementsBalanced(rest);
      UnmarkedBalanced([COMMA]);
      Both(before + PrintValue(value) + after, [COMMA]);
      Both(before + PrintValue(value) + after + [COMMA], PrintElements(rest));
  }

  lemma {:induction false} SpacedBalanced(before: seq<blank>, value: Json, after: seq<blank>)
    ensures Balanced(before + PrintValue(value) + after)
    decreases value, 1
  {
    ValueBalanced(value);
    BlanksBalanced(before);
    BlanksBalanced(after);
    Both(before, PrintValue(value));
    Both(before + PrintValue(value), after);
  }

  lemma {:induction false} MemberBalanced(m: Member)
    ensures Balanced(PrintMember(m))
  {
    var name := m.beforeName + PrintString(m.name) + m.afterName;
    StringBalanced(m.name);
    BlanksBalanced(m.beforeName);
    BlanksBalanced(m.afterName);
    UnmarkedBalanced([COLON]);
    Both(m.beforeName, PrintString(m.name));
    Both(m.beforeName + PrintString(m.name), m.afterName);
    Both(name, [COLON]);
    SpacedBalanced(m.beforeValue, m.value, m.afterValue);
    var value := m.beforeValue + PrintValue(m.value) + m.afterValue;
    Both(name + [COLON], value);
    assert PrintMember(m) == name + [COLON] + value;
  }

  lemma {:induction false} MembersBalanced(ms: Members)
    ensures Balanced(PrintMembers(ms))
  {
    match ms
    case Done => UnmarkedBalanced([]);
    case More(first, rest) =>
      MemberBalanced(first);
      MembersBalanced(rest);
      UnmarkedBalanced([COMMA]);
      Both([COMMA], PrintMember(first));
      Both([COMMA] + PrintMember(first), PrintMembers(rest));
  }

  lemma {:induction false} InsideBalanced(o: Object)
    ensures Balanced(PrintInside(o))
    decreases o, 0
  {
    match o
    case Empty(space) => BlanksBalanced(space);
    case Filled(first, rest) =>
      MemberBalanced(first);
      MembersBalanced(rest);
      Both(PrintMember(first), PrintMembers(rest));
  }

  lemma {:induction false} ObjectBalanced(o: Object)
    ensures Balanced(PrintObject(o))
    decreases o, 1
  {
    InsideBalanced(o);
    forall depth: nat | depth >= 1 ensures Moves(At(depth), PrintObject(o), At(depth)) {
      MovesOn(At(depth), [OPEN_BRACE], At(depth + 1), PrintInside(o), At(depth + 1));
      MovesOn(At(depth), [OPEN_BRACE] + PrintInside(o), At(depth + 1), [CLOSE_BRACE], At(depth));
    }
  }

  // ---------------------------------------------------------------- what is found

  /** A printed object at the start of a text is what the scanner reads, whatever follows. */
  lemma ClosedAfterObject(o: Object, suffix: seq<byte>)
    ensures ClosedAfter(START, PrintObject(o) + suffix) == |PrintObject(o)|
  {
    var begun := [OPEN_BRACE] + PrintInside(o);
    InsideBalanced(o);
    MovesOn(START, [OPEN_BRACE], At(1), PrintInside(o), At(1));
    ClosedBehind(START, begun, At(1), [CLOSE_BRACE] + suffix);
    assert PrintObject(o) + suffix == begun + ([CLOSE_BRACE] + suffix);
  }

  lemma {:induction false} FindBehind(pre: seq<byte>, c: byte, text: seq<byte>)
    requires c !in pre
    ensures Find(pre + text, c) == |pre| + Find(text, c)
  {
    if pre == [] {
      assert pre + text == text;
    } else {
      assert (pre + text)[1..] == pre[1..] + text;
      FindBehind(pre[1..], c, text);
    }
  }

  /** Any object, behind any text without an opening brace and before any text at all, is found. */
  lemma FirstObjectIsFound(pre: seq<byte>, o: Object, suffix: seq<byte>)
    requires OPEN_BRACE !in pre
    ensures FirstObject(pre + PrintObject(o) + suffix) == PrintObject(o)
  {
    var text := pre + PrintObject(o) + suffix;
    assert text == pre + (PrintObject(o) + suffix);
    FindBehind(pre, OPEN_BRACE, PrintObject(o) + suffix);
    assert (PrintObject(o) + suffix)[0] == OPEN_BRACE;
    assert text[|pre|..] == PrintObject(o) + suffix;
    ClosedAfterObject(o, suffix);
  }

  lemma {:induction false} ClosedStays(s: Scan, a: seq<byte>, b: seq<byte>)
    requires ClosedAfter(s, a) > 0
    ensures ClosedAfter(s, a + b) == ClosedAfter(s, a)
    decreases |a|
  {
    assert (a + b)[1..] == a[1..] + b;
    if !Closes(s, a[0]) {
      ClosedStays(Step(s, a[0]), a[1..], b);
    }
  }

  /** An object that was found is found again whatever is appended. */
  lemma FoundIsStable(text: seq<byte>, suffix: seq<byte>)
    requires FirstObject(text) != []
    ensures FirstObject(text + suffix) == FirstObject(text)
  {
    var start := Find(text, OPEN_BRACE);
    var pre, tail := text[..start], text[start..];
    FindBehind(pre, OPEN_BRACE, tail + suffix);
    assert text + suffix == pre + (tail + suffix) && (text + suffix)[start..] == tail + suffix;
    ClosedStays(START, tail, suffix);
  }

  /** What was found is found again in itself: it starts with its brace and ends with the brace that closes it. */
  lemma FoundIsItsOwn(text: seq<byte>)
    requires FirstObject(text) != []
    ensures FirstObject(FirstObject(text)) == FirstObject(text)
    ensures var found := FirstObject(text); found[0] == OPEN_BRACE && found[|found| - 1] == CLOSE_BRACE
  {
    var start := Find(text, OPEN_BRACE);
    ClosedWithin(START, text[start..]);
  }

  lemma {:induction false} ClosedWithin(s: Scan, text: seq<byte>)
    requires ClosedAfter(s, text) > 0
    ensures ClosedAfter(s, text[..ClosedAfter(s, text)]) == ClosedAfter(s, text)
    ensures text[ClosedAfter(s, text) - 1] == CLOSE_BRACE
    decreases |text|
  {
    var n := ClosedAfter(s, text);
    if !Closes(s, text[0]) {
      assert text[..n][1..] == text[1..][..n - 1];
      ClosedWithin(Step(s, text[0]), text[1..]);
    }
  }

  lemma FoundFits(pre: seq<byte>, text: seq<byte>)
    requires OPEN_BRACE !in pre
    ensures |FirstObject(pre + text)| <= |text|
  {
    FindBehind(pre, OPEN_BRACE, text);
  }

  lemma CutRejoins(pre: seq<byte>, text: seq<byte>, k: nat)
    requires k <= |text|
    ensures (pre + text[..k]) + text[k..] == pre + text + []
  {
  }

  /** Of an object that is cut off nothing is found. */
  lemma CutOffObjectIsNotFound(pre: seq<byte>, o: Object, k: nat)
    requires OPEN_BRACE !in pre && k < |PrintObject(o)|
    ensures FirstObject(pre + PrintObject(o)[..k]) == []
  {
    var cut, rest := PrintObject(o)[..k], PrintObject(o)[k..];
    FoundFits(pre, cut);
    FirstObjectIsFound(pre, o, []);
    CutRejoins(pre, PrintObject(o), k);
    if FirstObject(pre + cut) != [] {
      FoundIsStable(pre + cut, rest);
      assert false;
    }
  }

  // ---------------------------------------------------------------- the cleaning

  function StripBom(raw: seq<byte>): seq<byte> {
    if BOM <= raw then raw[3..] else raw
  }

  function StripGuard(s: seq<byte>): seq<byte> {
    if !(GUARD <= s) then s
    else
      var nl := Find(s, NEWLINE);
      if nl < |s| then s[nl + 1..] else s[4..]
  }

  function Normalize(raw: seq<byte>): seq<byte> { StripGuard(StripBom(raw)) }

  /** tokens.cpp normalize_apple_json_body */
  method NormalizeBody(raw: seq<byte>) returns (s: seq<byte>)
    ensures s == Normalize(raw)
  {
    s := raw;
    if |s| >= 3 && s[0] == 0xEF && s[1] == 0xBB && s[2] == 0xBF {
      assert s[..3] == BOM;
      s := s[3..];
    }
    assert s == StripBom(raw);
    if |s| >= 4 && s[0] == 41 && s[1] == 93 && s[2] == 125 && s[3] == 39 {
      assert s[..4] == GUARD;
      var nl := FindByte(s, NEWLINE);
      if nl < |s| {
        s := s[nl + 1..];
      } else {
        s := s[4..];
      }
    }
  }

  /** A guard line: the guard, anything up to the end of the line, and the newline. */
  predicate IsGuardLine(line: seq<byte>) {
    GUARD <= line && |line| >= 5 && Find(line, NEWLINE) == |line| - 1
  }

  lemma BomGone(bom: bool, line: seq<byte>, text: seq<byte>)
    requires IsGuardLine(line)
    ensures StripBom((if bom then BOM else []) + line + text) == line + text
  {
    if bom {
      assert BOM + line + text == BOM + (line + text);
      assert (BOM + (line + text))[3..] == line + text;
    } else {
      assert [] + line + text == line + text;
      assert (line + text)[0] == line[0] == GUARD[0];
    }
  }

  lemma GuardLineGone(line: seq<byte>, text: seq<byte>)
    requires IsGuardLine(line)
    ensures StripGuard(line + text) == text
  {
    var pre := line[..|line| - 1];
    assert line + text == pre + ([NEWLINE] + text);
    FindBehind(pre, NEWLINE, [NEWLINE] + text);
    assert ([NEWLINE] + text)[0] == NEWLINE;
    assert (line + text)[|line|..] == text;
    assert (line + text)[..4] == line[..4] == GUARD;
  }

  /**
   The object is also found behind a byte order mark, behind a guard line (which may hold
   braces), and behind both.
   */
  lemma ObjectBehindGuard(bom: bool, line: seq<byte>, pre: seq<byte>, o: Object, suffix: seq<byte>)
    requires OPEN_BRACE !in pre && IsGuardLine(line)
    ensures var text := pre + PrintObject(o) + suffix;
            FirstObject(Normalize((if bom then BOM else []) + line + text)) == PrintObject(o)
  {
    var text := pre + PrintObject(o) + suffix;
    BomGone(bom, line, text);
    GuardLineGone(line, text);
    FirstObjectIsFound(pre, o, suffix);
  }

  /** Without a guard the object is found too, behind a byte order mark or not. */
  lemma ObjectWithoutGuard(pre: seq<byte>, o: Object, suffix: seq<byte>)
    requires OPEN_BRACE !in pre && !(GUARD <= StripBom(pre))
    ensures FirstObject(Normalize(pre + PrintObject(o) + suffix)) == PrintObject(o)
  {
    var tail := PrintObject(o) + suffix;
    Associate(pre, PrintObject(o), suffix);
    StripUnguarded(pre, tail);
    Associate(StripBom(pre), PrintObject(o), suffix);
    FirstObjectIsFound(StripBom(pre), o, suffix);
  }

  lemma Associate(a: seq<byte>, b: seq<byte>, c: seq<byte>)
    ensures a + b + c == a + (b + c)
  {
  }

  lemma StripUnguarded(pre: seq<byte>, tail: seq<byte>)
    requires OPEN_BRACE !in pre && !(GUARD <= StripBom(pre)) && tail != [] && tail[0] == OPEN_BRACE
    ensures Normalize(pre + tail) == StripBom(pre) + tail
    ensures OPEN_BRACE !in StripBom(pre)
  {
    StripBomBefore(pre, tail);
    StripGuardBefore(StripBom(pre), tail);
  }

  lemma StripBomBefore(pre: seq<byte>, tail: seq<byte>)
    requires OPEN_BRACE !in pre && tail != [] && tail[0] == OPEN_BRACE
    ensures StripBom(pre + tail) == StripBom(pre) + tail
    ensures OPEN_BRACE !in StripBom(pre)
  {
    PrefixWithin(BOM, pre, tail);
    if BOM <= pre {
      assert (pre + tail)[3..] == pre[3..] + tail;
    }
  }

  lemma StripGuardBefore(pre: seq<byte>, tail: seq<byte>)
    requires !(GUARD <= pre) && tail != [] && tail[0] == OPEN_BRACE
    ensures StripGuard(pre + tail) == pre + tail
  {
    PrefixWithin(GUARD, pre, tail);
  }

  /** A mark without an opening brace cannot reach into an object. */
  lemma PrefixWithin(mark: seq<byte>, pre: seq<byte>, tail: seq<byte>)
    requires OPEN_BRACE !in mark && tail != [] && tail[0] == OPEN_BRACE
    ensures mark <= pre + tail <==> mark <= pre
  {
    assert (pre + tail)[|pre|] == OPEN_BRACE;
    assert |pre| < |mark| ==> mark[|pre|] != OPEN_BRACE;
  }

  /**
   Behind a guard, with a byte order mark before it or not, the object is left in place by the
   cleaning exactly if there is no newline in the body or one before the object; and then it is
   found.
   */
  lemma GuardSparesTheObject(pre: seq<byte>, o: Object, suffix: seq<byte>)
    requires OPEN_BRACE !in pre && GUARD <= StripBom(pre)
    ensures var tail := PrintObject(o) + suffix;
            && (|Normalize(pre + tail)| >= |tail| <==> NEWLINE in pre || NEWLINE !in tail)
            && (|Normalize(pre + tail)| >= |tail| ==> FirstObject(Normalize(pre + tail)) == PrintObject(o))
  {
    var tail, rest := PrintObject(o) + suffix, StripBom(pre);
    StripBomBefore(pre, tail);
    StripBomKeepsNewlines(pre);
    GuardedIsFound(rest, o, suffix);
  }

  lemma GuardedIsFound(pre: seq<byte>, o: Object, suffix: seq<byte>)
    requires OPEN_BRACE !in pre && GUARD <= pre
    ensures var tail := PrintObject(o) + suffix;
            if NEWLINE in pre || NEWLINE !in tail
            then |StripGuard(pre + tail)| >= |tail| && FirstObject(StripGuard(pre + tail)) == PrintObject(o)
            else |StripGuard(pre + tail)| < |tail|
  {
    var tail := PrintObject(o) + suffix;
    GuardCleaned(pre, tail);
    if NEWLINE in pre {
      FoundBehind(pre, Find(pre, NEWLINE) + 1, o, suffix);
    } else if NEWLINE !in tail {
      FoundBehind(pre, 4, o, suffix);
    }
  }

  lemma StripBomKeepsNewlines(pre: seq<byte>)
    ensures NEWLINE in StripBom(pre) <==> NEWLINE in pre
  {
    if BOM <= pre {
      assert pre == BOM + pre[3..];
    }
  }

  /** What is left of a body that begins with a guard, once a byte order mark is gone. */
  lemma {:induction false} GuardCleaned(pre: seq<byte>, tail: seq<byte>)
    requires GUARD <= pre
    ensures NEWLINE in pre ==>
              Find(pre, NEWLINE) < |pre| && StripGuard(pre + tail) == pre[Find(pre, NEWLINE) + 1..] + tail
    ensures NEWLINE !in pre && NEWLINE !in tail ==> StripGuard(pre + tail) == pre[4..] + tail
    ensures NEWLINE !in pre && NEWLINE in tail ==> |StripGuard(pre + tail)| < |tail|
  {
    var s := pre + tail;
    assert s[..4] == pre[..4] == GUARD;
    if NEWLINE in pre {
      GuardLineBefore(pre, tail);
    } else if NEWLINE !in tail {
      assert Find(s, NEWLINE) == |s|;
      assert s[4..] == pre[4..] + tail;
    } else {
      FindBehind(pre, NEWLINE, tail);
      assert Find(tail, NEWLINE) < |tail|;
    }
  }

  lemma {:induction false} GuardLineBefore(pre: seq<byte>, tail: seq<byte>)
    requires GUARD <= pre && NEWLINE in pre
    ensures StripGuard(pre + tail) == pre[Find(pre, NEWLINE) + 1..] + tail
  {
    var n := Find(pre, NEWLINE);
    assert n < |pre|;
    FindBehind(pre[..n], NEWLINE, pre[n..] + tail);
    assert pre + tail == pre[..n] + (pre[n..] + tail);
    assert Find(pre + tail, NEWLINE) == n;
    assert (pre + tail)[..4] == pre[..4];
    assert (pre + tail)[n + 1..] == pre[n + 1..] + tail;
  }

  lemma FoundBehind(pre: seq<byte>, n: nat, o: Object, suffix: seq<byte>)
    requires OPEN_BRACE !in pre && n <= |pre|
    ensures var tail := PrintObject(o) + suffix;
            FirstObject(pre[n..] + tail) == PrintObject(o) && |pre[n..] + tail| >= |tail|
  {
    Associate(pre[n..], PrintObject(o), suffix);
    FirstObjectIsFound(pre[n..], o, suffix);
  }

  /** With a newline after the object, cleaning takes the object away. */
  lemma GuardTakesTheObject()
    ensures var o := Empty([]);
            FirstObject(Normalize(GUARD + PrintObject(o) + [NEWLINE])) != PrintObject(o)
  {
    var o := Empty([]);
    var s := GUARD + PrintObject(o) + [NEWLINE];
    assert PrintInside(o) == [];
    assert s == [41, 93, 125, 39, 123, 125] + [NEWLINE];
    FindBehind([41, 93, 125, 39, 123, 125], NEWLINE, [NEWLINE]);
    assert s[..4] == GUARD;
    assert s[7..] == [];
  }
}
