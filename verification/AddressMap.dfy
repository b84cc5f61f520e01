/** The address map string of the hasher: parsing it, and the bit positions it gives each field. */
module AddressMap {
  import opened Sequences
  import opened Options

  predicate IsDigit(c: char) { '0' <= c <= '9' }

  predicate IsAlpha(c: char) { 'a' <= c <= 'z' || 'A' <= c <= 'Z' }

  /** Row, column, rank, bank group, bank, channel, cache line, pseudo channel, unused. */
  predicate IsField(c: char) { c in "rlRBbChcx" }

  // ---------------------------------------------------------------- parsing

  datatype Scanned = Token(rest: string, field: char, size: nat) | Stuck | Fatal

  function DigitsValue(s: string): nat
    requires forall i :: 0 <= i < |s| ==> IsDigit(s[i])
  {
    if s == [] then 0
    else
      assert IsDigit(s[|s| - 1]);
      DigitsValue(s[..|s| - 1]) * 10 + (s[|s| - 1] as int - '0' as int)
  }

  /** parsePattern reads backwards: digits, a colon, a field letter. Digits without a colon are
      ignored; a colon without digits has no number. At the front of the string nothing is
      removed. */
  function Scan(s: string, digits: string, colon: bool): Scanned
    requires forall i :: 0 <= i < |digits| ==> IsDigit(digits[i])
    decreases |s|
  {
    if s == [] then Stuck
    else
      var c, init := s[|s| - 1], s[..|s| - 1];
      if IsDigit(c) then (if colon then Fatal else Scan(init, [c] + digits, false))
      else if IsAlpha(c) then
        if !IsField(c) then Fatal
        else if !colon then Token(init, c, 1)
        else if digits == [] then Fatal
        else Token(init, c, DigitsValue(digits))
      else if c == ':' then Scan(init, digits, true)
      else Fatal
  }

  lemma {:induction false} ScanShrinks(s: string, digits: string, colon: bool)
    requires forall i :: 0 <= i < |digits| ==> IsDigit(digits[i])
    ensures var r := Scan(s, digits, colon); r.Token? ==> |r.rest| < |s|
    decreases |s|
  {
    if s != [] {
      var c, init := s[|s| - 1], s[..|s| - 1];
      if IsDigit(c) && !colon { ScanShrinks(init, [c] + digits, false); }
      if c == ':' { ScanShrinks(init, digits, true); }
    }
  }

  /** parsePattern as the loop it is. */
  method ParsePattern(s: string) returns (r: Scanned)
    ensures r == Scan(s, "", false)
  {
    var n, digits, colon := |s|, "", false;
    assert s[..|s|] == s;
    while 0 < n
      invariant 0 <= n <= |s| && (forall i :: 0 <= i < |digits| ==> IsDigit(digits[i]))
      invariant Scan(s[..n], digits, colon) == Scan(s, "", false)
    {
      var c := s[n - 1];
      assert s[..n][|s[..n]| - 1] == c && s[..n][..n - 1] == s[..n - 1];
      if IsDigit(c) {
        if colon { return Fatal; }
        digits := [c] + digits;
      } else if IsAlpha(c) {
        if !IsField(c) { return Fatal; }
        if !colon { return Token(s[..n - 1], c, 1); }
        if digits == [] { return Fatal; }
        return Token(s[..n - 1], c, DigitsValue(digits));
      } else if c == ':' {
        colon := true;
      } else {
        return Fatal;
      }
      n := n - 1;
    }
    return Stuck;
  }

  datatype Field = Field(name: char, size: nat)

  /** All fields from the lowest address bit up; none if parsing stops or never ends. */
  function Parse(s: string): Option<seq<Field>>
    decreases |s|
  {
    if s == [] then Some([])
    else
      ScanShrinks(s, "", false);
      match Scan(s, "", false)
      case Token(rest, f, n) =>
        (match Parse(rest)
         case Some(fields) => Some([Field(f, n)] + fields)
         case None => None)
      case _ => None
  }

  /** A field as it is written in the map: a letter, or a letter, a colon and digits. */
  datatype Written = Written(name: char, digits: string)

  ghost predicate WellFormed(w: Written) { IsField(w.name) && forall i :: 0 <= i < |w.digits| ==> IsDigit(w.digits[i]) }

  function Text(w: Written): string { if w.digits == [] then [w.name] else [w.name] + ":" + w.digits }

  ghost function SizeOf(w: Written): nat
    requires WellFormed(w)
  {
    if w.digits == [] then 1 else DigitsValue(w.digits)
  }

  /** The map as a string: highest field first. */
  ghost function Render(ws: seq<Written>): string { if ws == [] then [] else Render(ws[1..]) + Text(ws[0]) }

  ghost function Fields(ws: seq<Written>): (r: seq<Field>)
    requires forall i :: 0 <= i < |ws| ==> WellFormed(ws[i])
    ensures |r| == |ws|
  {
    seq(|ws|, i requires 0 <= i < |ws| => Field(ws[i].name, SizeOf(ws[i])))
  }

  lemma FieldIsAlpha(c: char)
    requires IsField(c)
    ensures IsAlpha(c) && !IsDigit(c) && c != ':'
  {}

  lemma {:induction false} ScanDigits(before: string, w: Written, k: nat)
    requires WellFormed(w) && w.digits != [] && k <= |w.digits|
    ensures Scan(before + [w.name] + ":" + w.digits[..k], w.digits[k..], false) ==
      Token(before, w.name, DigitsValue(w.digits))
    decreases k
  {
    var head := before + [w.name] + ":";
    var s := head + w.digits[..k];
    if k == 0 {
      assert s == head && w.digits[0..] == w.digits;
      assert s[|s| - 1] == ':' && s[..|s| - 1] == before + [w.name];
      var t := before + [w.name];
      assert t[|t| - 1] == w.name && t[..|t| - 1] == before;
      FieldIsAlpha(w.name);
      assert Scan(t, w.digits, true) == Token(before, w.name, DigitsValue(w.digits));
    } else {
      assert s[|s| - 1] == w.digits[k - 1] && s[..|s| - 1] == head + w.digits[..k - 1];
      assert [w.digits[k - 1]] + w.digits[k..] == w.digits[k - 1..];
      ScanDigits(before, w, k - 1);
    }
  }

  /** The scan takes exactly the last written field off the string. */
  lemma ScanTakesLast(before: string, w: Written)
    requires WellFormed(w)
    ensures Scan(before + Text(w), "", false) == Token(before, w.name, SizeOf(w))
  {
    if w.digits == [] {
      var s := before + Text(w);
      assert s[|s| - 1] == w.name && s[..|s| - 1] == before;
      FieldIsAlpha(w.name);
    } else {
      assert w.digits[..|w.digits|] == w.digits && w.digits[|w.digits|..] == "";
      assert before + Text(w) == before + [w.name] + ":" + w.digits;
      ScanDigits(before, w, |w.digits|);
    }
  }

  /** For every well-formed map, parsing ends and recovers its fields. */
  lemma {:induction false} ParseRecovers(ws: seq<Written>)
    requires forall i :: 0 <= i < |ws| ==> WellFormed(ws[i])
    ensures Parse(Render(ws)) == Some(Fields(ws))
    decreases |ws|
  {
    hide Scan, Text, DigitsValue, Fields, WellFormed, SizeOf;
    if ws != [] {
      ParseRecovers(ws[1..]);
      ScanTakesLast(Render(ws[1..]), ws[0]);
      TextNotEmpty(ws[0]);
      FieldsCons(ws);
    }
  }

  lemma FieldsCons(ws: seq<Written>)
    requires ws != [] && forall i :: 0 <= i < |ws| ==> WellFormed(ws[i])
    ensures Fields(ws) == [Field(ws[0].name, SizeOf(ws[0]))] + Fields(ws[1..])
  {
    hide WellFormed, SizeOf;
  }

  lemma TextNotEmpty(w: Written)
    ensures Text(w) != []
  {}

  // ---------------------------------------------------------------- separators

  ghost function Removed(s: string, c: char): string {
    if s == [] then [] else (if s[0] == c then [] else [s[0]]) + Removed(s[1..], c)
  }

  lemma {:induction false} RemovedConcat(a: string, b: string, c: char)
    ensures Removed(a + b, c) == Removed(a, c) + Removed(b, c)
  {
    if a == [] {
      EmptyIsUnit(b);
      EmptyIsUnit(Removed(b, c));
    } else {
      assert (a + b)[0] == a[0] && (a + b)[1..] == a[1..] + b;
      RemovedConcat(a[1..], b, c);
      Assoc(if a[0] == c then [] else [a[0]], Removed(a[1..], c), Removed(b, c));
    }
  }

  lemma RemovedOne(x: char, c: char)
    ensures Removed([x], c) == if x == c then [] else [x]
  {
    assert [x][1..] == [];
  }

  lemma {:induction false} RemovedAbsent(s: string, c: char)
    requires c !in s
    ensures Removed(s, c) == s
  {
    if s != [] {
      RemovedAbsent(s[1..], c);
      HeadAndRest(s);
    }
  }

  /** Erase every `c` of the string. */
  method Remove(s: string, c: char) returns (r: string)
    ensures r == Removed(s, c)
  {
    r := [];
    for i := 0 to |s|
      invariant r == Removed(s[..i], c)
    {
      assert s[..i + 1] == s[..i] + [s[i]];
      RemovedConcat(s[..i], [s[i]], c);
      EmptyIsUnit(r);
      if s[i] != c { r := r + [s[i]]; }
    }
    assert s[..|s|] == s;
  }

  /** The map string without underscores and line ends. */
  ghost function Cleaned(s: string): string { Removed(Removed(s, '_'), '\n') }

  method Clean(s: string) returns (r: string)
    ensures r == Cleaned(s)
  {
    r := Remove(s, '_');
    r := Remove(r, '\n');
  }

  ghost predicate IsSeparator(c: char) { c == '_' || c == '\n' }

  lemma CleanedConcat(a: string, b: string)
    ensures Cleaned(a + b) == Cleaned(a) + Cleaned(b)
  {
    RemovedConcat(a, b, '_');
    RemovedConcat(Removed(a, '_'), Removed(b, '_'), '\n');
  }

  lemma {:induction false} CleanedSeparators(s: string)
    requires forall i :: 0 <= i < |s| ==> IsSeparator(s[i])
    ensures Cleaned(s) == []
  {
    if s != [] {
      CleanedSeparators(s[1..]);
      HeadAndRest(s);
      CleanedConcat([s[0]], s[1..]);
      RemovedOne(s[0], '_');
      RemovedOne('\n', '\n');
    }
  }

  lemma TextIsClean(w: Written)
    requires WellFormed(w)
    ensures Cleaned(Text(w)) == Text(w)
  {
    FieldIsAlpha(w.name);
    RemovedAbsent(Text(w), '_');
    RemovedAbsent(Text(w), '\n');
  }

  /** A map string with separators before, between and after its fields. */
  ghost function Spaced(ws: seq<Written>, pads: seq<string>): string
    requires |pads| == |ws| + 1
  {
    if ws == [] then pads[0] else Spaced(ws[1..], pads[1..]) + (Text(ws[0]) + pads[0])
  }

  lemma {:induction false} SpacedIsRendered(ws: seq<Written>, pads: seq<string>)
    requires |pads| == |ws| + 1 && forall i :: 0 <= i < |ws| ==> WellFormed(ws[i])
    requires forall i :: 0 <= i < |pads| ==> forall j :: 0 <= j < |pads[i]| ==> IsSeparator(pads[i][j])
    ensures Cleaned(Spaced(ws, pads)) == Render(ws)
    decreases |ws|
  {
    hide Cleaned, Text, WellFormed;
    CleanedSeparators(pads[0]);
    if ws != [] {
      SpacedIsRendered(ws[1..], pads[1..]);
      CleanedConcat(Spaced(ws[1..], pads[1..]), Text(ws[0]) + pads[0]);
      CleanedConcat(Text(ws[0]), pads[0]);
      TextIsClean(ws[0]);
      EmptyIsUnit(Text(ws[0]));
    }
  }

  /** Separators anywhere around the fields do not matter: the map string is read as its fields. */
  lemma SpacedParses(ws: seq<Written>, pads: seq<string>)
    requires |pads| == |ws| + 1 && forall i :: 0 <= i < |ws| ==> WellFormed(ws[i])
    requires forall i :: 0 <= i < |pads| ==> forall j :: 0 <= j < |pads[i]| ==> IsSeparator(pads[i][j])
    ensures Parse(Cleaned(Spaced(ws, pads))) == Some(Fields(ws))
  {
    hide Cleaned, Spaced, Render, Parse, Fields, WellFormed;
    SpacedIsRendered(ws, pads);
    ParseRecovers(ws);
  }

  // ---------------------------------------------------------------- bit positions

  /** The field of every mapped address bit, lowest first. */
  ghost function Layout(fields: seq<Field>): seq<char> {
    if fields == [] then [] else seq(fields[0].size, i => fields[0].name) + Layout(fields[1..])
  }

  /** The positions of `f` in a layout, shifted by `base`. */
  ghost function PositionsOf(layout: seq<char>, f: char, base: nat): seq<nat> {
    if layout == [] then [] else (if layout[0] == f then [base] else []) + PositionsOf(layout[1..], f, base + 1)
  }

  lemma {:induction false} PositionsConcat(a: seq<char>, b: seq<char>, f: char, base: nat)
    ensures PositionsOf(a + b, f, base) == PositionsOf(a, f, base) + PositionsOf(b, f, base + |a|)
    decreases |a|
  {
    if a == [] {
      assert a + b == b;
    } else {
      assert (a + b)[0] == a[0] && (a + b)[1..] == a[1..] + b;
      PositionsConcat(a[1..], b, f, base + 1);
      var head := if a[0] == f then [base] else [];
      assert head + (PositionsOf(a[1..], f, base + 1) + PositionsOf(b, f, base + |a|)) ==
             (head + PositionsOf(a[1..], f, base + 1)) + PositionsOf(b, f, base + |a|);
    }
  }

  /** Position `p` is in the list of the field that owns it, and in no other. */
  lemma {:induction false} PositionsExact(layout: seq<char>, f: char, base: nat, p: nat)
    ensures p in PositionsOf(layout, f, base) <==> base <= p < base + |layout| && layout[p - base] == f
    decreases |layout|
  {
    if layout != [] {
      PositionsExact(layout[1..], f, base + 1, p);
      var head := if layout[0] == f then [base] else [];
      assert p in PositionsOf(layout, f, base) <==> p in head || p in PositionsOf(layout[1..], f, base + 1);
    }
  }

  lemma {:induction false} PositionsIncrease(layout: seq<char>, f: char, base: nat)
    ensures Increasing(PositionsOf(layout, f, base))
    decreases |layout|
  {
    if layout != [] {
      var rest := PositionsOf(layout[1..], f, base + 1);
      PositionsIncrease(layout[1..], f, base + 1);
      forall p | p in rest
        ensures base < p
      {
        PositionsExact(layout[1..], f, base + 1, p);
      }
      if layout[0] == f {
        var all := [base] + rest;
        assert PositionsOf(layout, f, base) == all;
        forall i, j | 0 <= i < j < |all|
          ensures all[i] < all[j]
        {
          assert all[j] == rest[j - 1] && rest[j - 1] in rest;
        }
      } else {
        assert PositionsOf(layout, f, base) == rest;
      }
    }
  }

  /** Lists of different fields are disjoint, and together they hold every mapped bit. */
  lemma PositionsPartition(layout: seq<char>, p: nat)
    ensures p < |layout| <==> exists f :: p in PositionsOf(layout, f, 0)
    ensures forall f, g :: p in PositionsOf(layout, f, 0) && p in PositionsOf(layout, g, 0) ==> f == g
  {
    forall f: char
      ensures p in PositionsOf(layout, f, 0) <==> p < |layout| && layout[p] == f
    {
      PositionsExact(layout, f, 0, p);
    }
    if p < |layout| { assert p in PositionsOf(layout, layout[p], 0); }
  }

  lemma {:induction false} RunPositions(n: nat, c: char, f: char, base: nat)
    ensures PositionsOf(seq(n, i => c), f, base) == if c == f then seq(n, i => base + i) else []
    decreases n
  {
    if 0 < n {
      var run := seq(n, i => c);
      assert run[1..] == seq(n - 1, i => c);
      RunPositions(n - 1, c, f, base + 1);
      if c == f { assert [base] + seq(n - 1, i => base + 1 + i) == seq(n, i => base + i); }
    }
  }

  /** The lists of the map are the positions of their fields; other fields have none. */
  ghost predicate Lists(positions: map<char, seq<nat>>, layout: seq<char>) {
    forall f :: PositionsOf(layout, f, 0) == if f in positions then positions[f] else []
  }

  /** Append a run of `field.size` bits to its field's list. */
  function Appended(positions: map<char, seq<nat>>, field: Field, total: nat): map<char, seq<nat>> {
    var had := if field.name in positions then positions[field.name] else [];
    positions[field.name := had + seq(field.size, i requires 0 <= i => total + i)]
  }

  lemma AppendedLists(positions: map<char, seq<nat>>, layout: seq<char>, field: Field)
    requires Lists(positions, layout)
    ensures Lists(Appended(positions, field, |layout|), layout + seq(field.size, i => field.name))
  {
    hide PositionsOf;
    var positions' := Appended(positions, field, |layout|);
    forall f: char
      ensures PositionsOf(layout + seq(field.size, i => field.name), f, 0) ==
        if f in positions' then positions'[f] else []
    {
      FieldAppended(layout, field, f);
    }
  }

  lemma FieldAppended(layout: seq<char>, field: Field, f: char)
    ensures PositionsOf(layout + seq(field.size, i => field.name), f, 0) ==
      PositionsOf(layout, f, 0) + if f == field.name then seq(field.size, i requires 0 <= i => |layout| + i) else []
  {
    hide PositionsOf;
    PositionsConcat(layout, seq(field.size, i => field.name), f, 0);
    RunPositions(field.size, field.name, f, |layout|);
    assert seq(field.size, i => |layout| + i) == seq(field.size, i requires 0 <= i => |layout| + i);
  }

  /** build: the position lists, filled field by field. */
  method Build(fields: seq<Field>) returns (positions: map<char, seq<nat>>, total: nat)
    ensures total == |Layout(fields)| && Lists(positions, Layout(fields))
  {
    positions, total := map[], 0;
    ghost var done: seq<char> := [];
    for n := 0 to |fields|
      invariant done + Layout(fields[n..]) == Layout(fields) && total == |done| && Lists(positions, done)
    {
      LayoutStep(done, fields, n);
      AppendedLists(positions, done, fields[n]);
      hide Lists, Appended, Layout;
      positions := Appended(positions, fields[n], total);
      done := done + seq(fields[n].size, i => fields[n].name);
      total := total + fields[n].size;
    }
    LayoutEnd(done, fields);
  }

  lemma LayoutStep(done: seq<char>, fields: seq<Field>, n: nat)
    requires n < |fields|
    ensures done + Layout(fields[n..]) == (done + seq(fields[n].size, i => fields[n].name)) + Layout(fields[n + 1..])
  {
    assert fields[n..][0] == fields[n] && fields[n..][1..] == fields[n + 1..];
  }

  lemma LayoutEnd(done: seq<char>, fields: seq<Field>)
    ensures done + Layout(fields[|fields|..]) == done
  {}

  // ---------------------------------------------------------------- the simple form of a map

  /** A map that gives no field more than one bit only lists the order of the fields. */
  ghost predicate OnlyOrder(layout: seq<char>) { forall f :: |PositionsOf(layout, f, 0)| <= 1 }

  /** The fields with the sizes the configured geometry asks for. */
  function Sized(fields: seq<Field>, bits: map<char, nat>): (r: seq<Field>)
    ensures |r| == |fields|
  {
    seq(|fields|, i requires 0 <= i < |fields| =>
      Field(fields[i].name, if fields[i].name in bits then bits[fields[i].name] else 0))
  }

  method IsOnlyOrder(positions: map<char, seq<nat>>) returns (ok: bool)
    ensures ok <==> forall f :: f in positions ==> |positions[f]| <= 1
  {
    var left := positions.Keys;
    while left != {}
      invariant left <= positions.Keys
      invariant forall f :: f in positions && f !in left ==> |positions[f]| <= 1
      decreases left
    {
      var f :| f in left;
      if |positions[f]| > 1 { return false; }
      left := left - {f};
    }
    return true;
  }

  /** The position lists of a map in either form. */
  method BuildMap(fields: seq<Field>, bits: map<char, nat>) returns (positions: map<char, seq<nat>>, total: nat)
    ensures var used := if OnlyOrder(Layout(fields)) then Sized(fields, bits) else fields;
      total == |Layout(used)| && Lists(positions, Layout(used))
  {
    positions, total := Build(fields);
    var simple := IsOnlyOrder(positions);
    OrderSeen(positions, Layout(fields));
    if simple { positions, total := Build(Sized(fields, bits)); }
  }

  lemma OrderSeen(positions: map<char, seq<nat>>, layout: seq<char>)
    requires Lists(positions, layout)
    ensures OnlyOrder(layout) <==> forall f :: f in positions ==> |positions[f]| <= 1
  {
    forall f: char
      ensures |PositionsOf(layout, f, 0)| <= 1 <==> (f in positions ==> |positions[f]| <= 1)
    {
      assert PositionsOf(layout, f, 0) == if f in positions then positions[f] else [];
    }
  }
}
