/** The identity mapping written to /proc/self/uid_map and /proc/self/gid_map
    (src/main.rs, `run_chroot`): the line `format!("{} {} 1", id, id)`, and a
    strict reader of the map format of user_namespaces(7) that accepts such
    lines. The reader is narrower than the kernel's: it takes single spaces
    between the fields and no trailing newline, which is all this program
    writes. */
module IdMap {
  import opened Text

  /** uid_t and gid_t are 32-bit unsigned integers on Linux. */
  type Id = x: nat | x < 0x1_0000_0000

  predicate IsDigit(c: char) { '0' <= c <= '9' }

  predicate AllDigits(s: string) { forall i :: 0 <= i < |s| ==> IsDigit(s[i]) }

  function DigitChar(d: nat): (c: char)
    requires d < 10
    ensures IsDigit(c) && c as int - '0' as int == d
  {
    ('0' as int + d) as char
  }

  /** The text Rust's `Display` writes for an unsigned integer: decimal digits,
      no sign, and no leading zero except for zero itself. */
  function Decimal(n: nat): (s: string)
    ensures |s| >= 1 && AllDigits(s)
    ensures s[0] == '0' ==> s == "0"
    decreases n
  {
    if n < 10 then [DigitChar(n)] else Decimal(n / 10) + [DigitChar(n % 10)]
  }

  /** The value of a run of decimal digits, most significant first. */
  function DecimalValue(s: string): nat
    requires AllDigits(s)
    decreases |s|
  {
    if s == [] then 0 else DecimalValue(s[..|s| - 1]) * 10 + (s[|s| - 1] as int - '0' as int)
  }

  /** How one numeric field of a map line is read: a non-empty run of digits. */
  function ParseNumber(s: string): Option<nat>
  {
    if s != [] && AllDigits(s) then Some(DecimalValue(s)) else None
  }

  lemma {:induction false} DecimalRoundTrip(n: nat)
    ensures ParseNumber(Decimal(n)) == Some(n)
    decreases n
  {
    var s := Decimal(n);
    if n < 10 {
      assert s[..|s| - 1] == [];
      assert DecimalValue(s) == n;
    } else {
      DecimalRoundTrip(n / 10);
      assert s[..|s| - 1] == Decimal(n / 10);
      assert DecimalValue(s) == (n / 10) * 10 + n % 10;
    }
  }

  /** The text written to a map file for `id`: inside id, outside id, range 1,
      on a single line. */
  function MapLine(id: Id): (line: string)
    ensures '\n' !in line
    ensures |line| == 2 * |Decimal(id)| + 3 && line[|line| - 2..] == " 1"
  {
    var d := Decimal(id);
    var line := d + " " + d + " 1";
    DigitsHaveNoSeparator(d);
    assert '\n' !in line by {
      forall i | 0 <= i < |line| ensures line[i] != '\n' {
        if i < |d| { assert line[i] == d[i]; }
        else if i == |d| || i == |d| + 1 + |d| { assert line[i] == ' '; }
        else if i < |d| + 1 + |d| { assert line[i] == d[i - |d| - 1]; }
        else { assert line[i] == '1'; }
      }
    }
    line
  }

  /** One extent of a uid or gid map: `count` ids starting at `inside` in the new
      user namespace stand for as many ids starting at `outside` outside it. */
  datatype Extent = Extent(inside: nat, outside: nat, count: nat)

  /** A map line, read strictly: three numbers separated by single spaces
      (the kernel also skips repeated and leading blanks, which this
      program never writes). */
  function ParseExtent(line: string): Option<Extent>
  {
    var f := Split(line, ' ');
    if |f| != 3 then None
    else match (ParseNumber(f[0]), ParseNumber(f[1]), ParseNumber(f[2]))
      case (Some(a), Some(b), Some(c)) => Some(Extent(a, b, c))
      case _ => None
  }

  /** The extents of a sequence of map lines, one per line; None when a
      line is malformed. */
  function ParseLines(lines: seq<string>): Option<seq<Extent>>
  {
    if lines == [] then Some([])
    else match ParseExtent(lines[0])
      case None => None
      case Some(e) =>
        match ParseLines(lines[1..])
        case None => None
        case Some(es) => Some([e] + es)
  }

  /** The extents of a map text whose lines are separated by newlines (a
      final newline, which the kernel accepts, is not taken here). */
  function ParseMap(text: string): Option<seq<Extent>>
  {
    ParseLines(Split(text, '\n'))
  }

  lemma DigitsHaveNoSeparator(s: string)
    requires AllDigits(s)
    ensures ' ' !in s && '\n' !in s
  {
  }

  /** The text written for `id` reads back as exactly one extent, mapping
      `id` to itself with range 1: identity, nothing more. */
  lemma {:induction false} MapLineIsIdentity(id: Id)
    ensures ParseMap(MapLine(id)) == Some([Extent(id, id, 1)])
  {
    var d := Decimal(id);
    DigitsHaveNoSeparator(d);
    assert ' ' !in "1" && '\n' !in "1";
    SplitWithout(d, ' ');
    SplitWithout("1", ' ');
    SplitAround(d, ' ', "1");
    assert d + " 1" == d + [' '] + "1";
    SplitAround(d, ' ', d + " 1");
    var line := MapLine(id);
    assert line == d + [' '] + (d + " 1");
    assert Split(line, ' ') == [d, d, "1"];
    DecimalRoundTrip(id);
    assert ParseNumber("1") == Some(1) by {
      assert AllDigits("1");
      assert DecimalValue("1") == DecimalValue("") * 10 + 1;
    }
    assert ParseExtent(line) == Some(Extent(id, id, 1));
    SplitWithout(line, '\n');
    assert ParseLines([line]) == Some([Extent(id, id, 1)]) by {
      var ls := [line];
      assert ls[1..] == [];
      assert ParseLines(ls[1..]) == Some([]);
      assert ParseExtent(ls[0]) == Some(Extent(id, id, 1));
      var one: seq<Extent> := [Extent(id, id, 1)];
      assert one + [] == one;
      assert ParseLines(ls) == Some(one);
    }
  }
}
