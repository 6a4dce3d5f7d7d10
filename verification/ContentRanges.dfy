/** The Content-Range header, section 14.4 of RFC 9110. */
module ContentRanges {
  import opened Basics
  import opened Bytes

  const STAR: Byte := 42
  const DASH: Byte := 45
  const SLASH: Byte := 47
  /** The unit and the space after it. */
  const UNIT: Text := [98, 121, 116, 101, 115, 32]

  datatype ContentRange = Range(start: nat, end: nat, length: Option<nat>) | Unsatisfied(length: Option<nat>)

  function TrimStart(s: Text): Text {
    if s != [] && (s[0] == SPACE || s[0] == TAB) then TrimStart(s[1..]) else s
  }

  function TrimEnd(s: Text): Text {
    if s != [] && (s[|s| - 1] == SPACE || s[|s| - 1] == TAB) then TrimEnd(s[..|s| - 1]) else s
  }

  function Trim(s: Text): Text {
    TrimEnd(TrimStart(s))
  }

  function ParseLength(s: Text): Option<Option<nat>> {
    if s == [STAR] then Some(None)
    else if ParseU64(s).Some? then Some(ParseU64(s)) else None
  }

  /** What stands between the unit and the slash. */
  function ParseBounds(s: Text): Option<(nat, nat)> {
    var dash := IndexOf(s, DASH);
    if dash == |s| then None
    else
      var start, end := ParseU64(Trim(s[..dash])), ParseU64(Trim(s[dash + 1..]));
      if start.None? || end.None? || end.value < start.value then None else Some((start.value, end.value))
  }

  function ParseUnsatisfied(length: Text): Option<ContentRange> {
    var length := ParseLength(Trim(length));
    if length.None? then None else Some(Unsatisfied(length.value))
  }

  function ParseRange(s: Text): Option<ContentRange> {
    var slash := IndexOf(s, SLASH);
    if slash == |s| then None
    else
      var bounds, length := ParseBounds(s[..slash]), ParseLength(Trim(s[slash + 1..]));
      if bounds.None? || length.None? || (length.value.Some? && bounds.value.1 >= length.value.value) then None
      else Some(Range(bounds.value.0, bounds.value.1, length.value))
  }

  function ParseContentRange(value: Text): Option<ContentRange> {
    var s := Trim(value);
    if !(UNIT <= s) then None
    else if [STAR, SLASH] <= s[|UNIT|..] then ParseUnsatisfied(s[|UNIT| + 2..])
    else ParseRange(s[|UNIT|..])
  }

  /** Numbers of 64 bits, and a range that is not empty and inside the resource. */
  predicate RangeOk(r: ContentRange) {
    match r
    case Range(start, end, length) =>
      start <= end <= MAX_U64 && (length.Some? ==> end < length.value <= MAX_U64)
    case Unsatisfied(length) => length.Some? ==> length.value <= MAX_U64
  }

  function PrintLength(length: Option<nat>): Text {
    if length.None? then [STAR] else Print(length.value)
  }

  /** The range without its unit. */
  function PrintBare(start: nat, end: nat, length: Option<nat>): Text {
    Print(start) + [DASH] + Print(end) + [SLASH] + PrintLength(length)
  }

  function PrintRange(r: ContentRange): Text {
    match r
    case Range(start, end, length) => UNIT + PrintBare(start, end, length)
    case Unsatisfied(length) => UNIT + ([STAR, SLASH] + PrintLength(length))
  }

  /** Whatever is accepted makes sense. */
  lemma AcceptedRanges(value: Text)
    ensures ParseContentRange(value).Some? ==> RangeOk(ParseContentRange(value).value)
  {}

  lemma TrimPlain(s: Text)
    requires s != [] && s[0] > SPACE && s[|s| - 1] > SPACE
    ensures Trim(s) == s
  {}

  lemma PrintedLength(length: Option<nat>)
    ensures PrintLength(length) != [] && (forall i :: 0 <= i < |PrintLength(length)| ==> PrintLength(length)[i] > SPACE)
    ensures Trim(PrintLength(length)) == PrintLength(length)
    ensures ParseLength(PrintLength(length)) == if length.Some? && length.value > MAX_U64 then None else Some(length)
  {
    if length.Some? {
      PrintParse(length.value);
      assert IsDigit(Print(length.value)[0]);
    }
  }

  lemma PrintedTrim(n: nat)
    ensures Trim(Print(n)) == Print(n) && SLASH !in Print(n) && DASH !in Print(n) && STAR !in Print(n)
  {
    assert IsDigit(Print(n)[0]);
  }

  // ---------- blanks

  predicate IsBlank(s: Text) {
    forall i :: 0 <= i < |s| ==> s[i] == SPACE || s[i] == TAB
  }

  lemma {:induction false} TrimStartBlank(left: Text, s: Text)
    requires IsBlank(left) && s != [] && s[0] > SPACE
    ensures TrimStart(left + s) == s
  {
    if left == [] {
      assert left + s == s;
    } else {
      assert (left + s)[1..] == left[1..] + s;
      TrimStartBlank(left[1..], s);
    }
  }

  lemma {:induction false} TrimEndBlank(s: Text, right: Text)
    requires IsBlank(right) && s != [] && s[|s| - 1] > SPACE
    ensures TrimEnd(s + right) == s
  {
    if right == [] {
      assert s + right == s;
    } else {
      assert (s + right)[..|s + right| - 1] == s + right[..|right| - 1];
      TrimEndBlank(s, right[..|right| - 1]);
    }
  }

  lemma TrimPadded(left: Text, s: Text, right: Text)
    requires IsBlank(left) && IsBlank(right) && s != [] && s[0] > SPACE && s[|s| - 1] > SPACE
    ensures Trim(left + s + right) == s
  {
    assert left + s + right == left + (s + right) && (s + right)[0] == s[0];
    TrimStartBlank(left, s + right);
    TrimEndBlank(s, right);
  }

  /** The number, with blanks around it. */
  ghost predicate Spells(s: Text, n: nat) {
    Trim(s) == Print(n) && DASH !in s && SLASH !in s && STAR !in s
  }

  lemma PaddedSpells(left: Text, n: nat, right: Text)
    requires IsBlank(left) && IsBlank(right)
    ensures Spells(left + Print(n) + right, n)
  {
    var s := Print(n);
    PrintedTrim(n);
    assert IsDigit(s[0]) && IsDigit(s[|s| - 1]);
    TrimPadded(left, s, right);
  }

  // ---------- reading back

  lemma SpelledBounds(x: Text, start: nat, y: Text, end: nat)
    requires Spells(x, start) && Spells(y, end)
    ensures ParseBounds(x + [DASH] + y) == if start <= end <= MAX_U64 then Some((start, end)) else None
  {
    var s := x + [DASH] + y;
    IndexOfPlain(x, DASH, y);
    assert s[..|x|] == x && s[|x| + 1..] == y;
    PrintParse(start);
    PrintParse(end);
  }

  /** Blanks may surround each of the numbers. */
  lemma SpelledRange(x: Text, start: nat, y: Text, end: nat, z: Text, length: Option<nat>)
    requires Spells(x, start) && Spells(y, end) && Trim(z) == PrintLength(length)
    ensures ParseRange(x + [DASH] + y + [SLASH] + z)
         == if RangeOk(Range(start, end, length)) then Some(Range(start, end, length)) else None
    ensures !([STAR, SLASH] <= x + [DASH] + y + [SLASH] + z)
  {
    var s, bounds := x + [DASH] + y + [SLASH] + z, x + [DASH] + y;
    SpelledBounds(x, start, y, end);
    PrintedLength(length);
    IndexOfPlain(bounds, SLASH, z);
    assert s[..|bounds|] == bounds && s[|bounds| + 1..] == z;
    assert |x| > 0 && s[0] == x[0];
  }

  lemma PrintedRange(start: nat, end: nat, length: Option<nat>)
    ensures ParseRange(PrintBare(start, end, length))
         == if RangeOk(Range(start, end, length)) then Some(Range(start, end, length)) else None
    ensures !([STAR, SLASH] <= PrintBare(start, end, length))
  {
    PrintedTrim(start);
    PrintedTrim(end);
    PrintedLength(length);
    SpelledRange(Print(start), start, Print(end), end, PrintLength(length), length);
  }

  /** A printed header is read back exactly when it makes sense, and refused otherwise. */
  lemma PrintParseRange(r: ContentRange)
    ensures ParseContentRange(PrintRange(r)) == if RangeOk(r) then Some(r) else None
  {
    PrintedLength(r.length);
    TrimPlain(PrintRange(r));
    match r {
      case Unsatisfied(length) =>
        assert PrintRange(r)[|UNIT| + 2..] == PrintLength(length);
        assert PrintRange(r)[|UNIT|..] == [STAR, SLASH] + PrintLength(length);
      case Range(start, end, length) =>
        PrintedRange(start, end, length);
        assert PrintRange(r)[|UNIT|..] == PrintBare(start, end, length);
    }
  }

  /** The blanks of a header: around it, around each bound, before the length. */
  datatype Blanks = Blanks(before: Text, a: Text, b: Text, c: Text, d: Text, e: Text, after: Text)

  predicate AllBlank(p: Blanks) {
    && IsBlank(p.before) && IsBlank(p.a) && IsBlank(p.b) && IsBlank(p.c) && IsBlank(p.d) && IsBlank(p.e)
    && IsBlank(p.after)
  }

  function PaddedBare(start: nat, end: nat, length: Option<nat>, p: Blanks): Text {
    (p.a + Print(start) + p.b) + [DASH] + (p.c + Print(end) + p.d) + [SLASH] + (p.e + PrintLength(length))
  }

  lemma PaddedEnds(start: nat, end: nat, length: Option<nat>, p: Blanks)
    ensures var s := UNIT + PaddedBare(start, end, length, p); s[0] > SPACE && s[|s| - 1] > SPACE
  {
    PrintedLength(length);
  }

  /** A header with blanks is read like the one without. */
  lemma PaddedRange(start: nat, end: nat, length: Option<nat>, p: Blanks)
    requires AllBlank(p)
    ensures ParseContentRange(p.before + (UNIT + PaddedBare(start, end, length, p)) + p.after)
         == if RangeOk(Range(start, end, length)) then Some(Range(start, end, length)) else None
  {
    var bare := PaddedBare(start, end, length, p);
    PaddedSpells(p.a, start, p.b);
    PaddedSpells(p.c, end, p.d);
    PrintedLength(length);
    TrimPadded(p.e, PrintLength(length), []);
    assert p.e + PrintLength(length) + [] == p.e + PrintLength(length);
    SpelledRange(p.a + Print(start) + p.b, start, p.c + Print(end) + p.d, end, p.e + PrintLength(length), length);
    PaddedEnds(start, end, length, p);
    TrimPadded(p.before, UNIT + bare, p.after);
    assert (UNIT + bare)[|UNIT|..] == bare;
  }

  lemma BoundsForm(s: Text) returns (x: Text, y: Text)
    requires ParseBounds(s).Some?
    ensures s == x + [DASH] + y && DASH !in x
    ensures ParseU64(Trim(x)) == Some(ParseBounds(s).value.0) && ParseU64(Trim(y)) == Some(ParseBounds(s).value.1)
  {
    var dash := IndexOf(s, DASH);
    x, y := s[..dash], s[dash + 1..];
  }

  lemma RangeForm(s: Text) returns (bounds: Text, z: Text)
    requires ParseRange(s).Some?
    ensures s == bounds + [SLASH] + z && SLASH !in bounds && ParseRange(s).value.Range?
    ensures var r := ParseRange(s).value;
            && ParseBounds(bounds) == Some((r.start, r.end))
            && (if r.length.None? then Trim(z) == [STAR] else ParseU64(Trim(z)) == r.length)
  {
    var slash := IndexOf(s, SLASH);
    bounds, z := s[..slash], s[slash + 1..];
  }

  /** And nothing else is read: a range that is accepted is the unit, two numbers
      with a dash and a length after a slash, each with blanks around it. */
  lemma AcceptedForm(value: Text) returns (x: Text, y: Text, z: Text)
    requires ParseContentRange(value).Some? && ParseContentRange(value).value.Range?
    ensures Trim(value) == UNIT + (x + [DASH] + y + [SLASH] + z)
    ensures DASH !in x && SLASH !in x + [DASH] + y
    ensures var r := ParseContentRange(value).value;
            && ParseU64(Trim(x)) == Some(r.start) && ParseU64(Trim(y)) == Some(r.end)
            && (if r.length.None? then Trim(z) == [STAR] else ParseU64(Trim(z)) == r.length)
  {
    var s := Trim(value)[|UNIT|..];
    assert Trim(value) == UNIT + s;
    var bounds;
    bounds, z := RangeForm(s);
    x, y := BoundsForm(bounds);
  }

  /** What a header can say. */
  type HeaderRange = r: Option<ContentRange> | r.Some? ==> RangeOk(r.value) witness None

  /** A missing header and an invalid one say nothing. */
  function ParseHeader(header: Option<Text>): HeaderRange {
    if header.None? then None
    else
      AcceptedRanges(header.value);
      ParseContentRange(header.value)
  }

  /** Every range that makes sense can be said. */
  lemma EveryRangeSayable(r: ContentRange)
    requires RangeOk(r)
    ensures ParseHeader(Some(PrintRange(r))) == Some(r)
  {
    PrintParseRange(r);
  }
}
