/** The text side of `StEventCuts::MaskRuns(filename)`: the file is read line by
    line (`std::getline`), empty lines and lines starting with `#` are skipped,
    every other line is cut at commas (`std::getline(ss, entry, ',')`) and each
    field is converted with C `atoi`; every non-zero value is a masked run id,
    stored as `UInt_t`. */
module RunMaskText {
  import opened Inputs

  /** Cutting a text at every `sep`: the pieces between separators, so a text with
      k separators gives k + 1 pieces (an empty text gives one empty piece). */
  function Split(s: string, sep: char): (r: seq<string>)
    ensures |r| >= 1
    ensures forall k :: 0 <= k < |r| ==> sep !in r[k]
    decreases |s|
  {
    if |s| == 0 then [""]
    else
      var rest := Split(s[1..], sep);
      if s[0] == sep then [""] + rest
      else [[s[0]] + rest[0]] + rest[1..]
  }

  /** The pieces put back together with `sep` between neighbours. */
  function Join(fs: seq<string>, sep: char): string
    requires |fs| >= 1
    decreases |fs|
  {
    if |fs| == 1 then fs[0] else fs[0] + [sep] + Join(fs[1..], sep)
  }

  /** Splitting loses nothing: joining the pieces gives the text back. */
  lemma {:induction false} JoinSplit(s: string, sep: char)
    decreases |s|
    ensures Join(Split(s, sep), sep) == s
  {
    if |s| > 0 {
      JoinSplit(s[1..], sep);
      var rest := Split(s[1..], sep);
      if s[0] == sep {
        assert ([""] + rest)[1..] == rest;
        assert s == [s[0]] + s[1..];
      } else {
        var r := [[s[0]] + rest[0]] + rest[1..];
        if |rest| == 1 {
          assert Join(r, sep) == [s[0]] + rest[0];
        } else {
          assert r[1..] == rest[1..];
          assert Join(rest, sep) == rest[0] + [sep] + Join(rest[1..], sep);
        }
        assert s == [s[0]] + s[1..];
      }
    }
  }

  /** A leading piece free of `sep` is glued onto the first piece of the rest. */
  lemma {:induction false} SplitPrefix(x: string, rest: string, sep: char)
    requires sep !in x
    decreases |x|
    ensures Split(x + rest, sep) == [x + Split(rest, sep)[0]] + Split(rest, sep)[1..]
  {
    var t := Split(rest, sep);
    if |x| == 0 {
      assert x == "" && x + rest == rest && x + t[0] == t[0];
      assert [t[0]] + t[1..] == t;
    } else {
      var xr := x + rest;
      assert xr[0] == x[0] && x[0] != sep;
      assert xr[1..] == x[1..] + rest;
      SplitPrefix(x[1..], rest, sep);
      var r := Split(xr[1..], sep);
      assert r == [x[1..] + t[0]] + t[1..];
      assert Split(xr, sep) == [[x[0]] + r[0]] + r[1..];
      assert r[1..] == t[1..];
      assert [x[0]] + (x[1..] + t[0]) == x + t[0];
    }
  }

  /** Splitting undoes joining, for pieces that hold no separator. */
  lemma {:induction false} SplitJoin(fs: seq<string>, sep: char)
    requires |fs| >= 1
    requires forall k :: 0 <= k < |fs| ==> sep !in fs[k]
    decreases |fs|
    ensures Split(Join(fs, sep), sep) == fs
  {
    if |fs| == 1 {
      SplitPrefix(fs[0], "", sep);
      assert fs[0] + "" == fs[0];
      assert Split("", sep) == [""];
      assert [fs[0] + ""] + [""][1..] == [fs[0]];
    } else {
      var j := Join(fs[1..], sep);
      SplitJoin(fs[1..], sep);
      assert fs[0] + [sep] + j == fs[0] + ([sep] + j);
      SplitPrefix(fs[0], [sep] + j, sep);
      var sj := [sep] + j;
      assert sj[0] == sep && sj[1..] == j;
      assert Split(sj, sep) == [""] + Split(j, sep);
      assert Split(sj, sep)[0] == "" && Split(sj, sep)[1..] == fs[1..];
      assert fs[0] + "" == fs[0];
      assert fs == [fs[0]] + fs[1..];
    }
  }

  /** The characters C `isspace` accepts: blank, \t, \n, \v, \f, \r. */
  predicate IsSpace(c: char)
  {
    c == ' ' || c == '\t' || c == '\n' || c as int == 11 || c as int == 12 || c == '\r'
  }

  predicate IsDigit(c: char)
  {
    '0' <= c <= '9'
  }

  predicate AllDigits(d: string)
  {
    forall k :: 0 <= k < |d| ==> IsDigit(d[k])
  }

  /** The text after the leading white space that `atoi` skips. */
  function SkipSpace(s: string): (r: string)
    decreases |s|
  {
    if |s| > 0 && IsSpace(s[0]) then SkipSpace(s[1..]) else s
  }

  /** `SkipSpace` drops a run of white space from the front and stops at the
      first other character. */
  lemma {:induction false} SkipSpaceSuffix(s: string)
    decreases |s|
    ensures |SkipSpace(s)| <= |s|
    ensures SkipSpace(s) == s[|s| - |SkipSpace(s)|..]
    ensures |SkipSpace(s)| > 0 ==> !IsSpace(SkipSpace(s)[0])
    ensures forall k :: 0 <= k < |s| - |SkipSpace(s)| ==> IsSpace(s[k])
  {
    if |s| > 0 && IsSpace(s[0]) {
      SkipSpaceSuffix(s[1..]);
      var r := SkipSpace(s[1..]);
      assert s[1..][|s| - 1 - |r|..] == s[|s| - |r|..];
      forall k | 0 <= k < |s| - |r|
        ensures IsSpace(s[k])
      {
        if k > 0 {
          assert s[k] == s[1..][k - 1];
        }
      }
    }
  }

  /** The longest prefix made of decimal digits. */
  function LeadingDigits(s: string): (r: string)
    decreases |s|
    ensures |r| <= |s| && forall k :: 0 <= k < |r| ==> r[k] == s[k]
    ensures AllDigits(r)
    ensures |r| < |s| ==> !IsDigit(s[|r|])
  {
    if |s| == 0 || !IsDigit(s[0]) then "" else [s[0]] + LeadingDigits(s[1..])
  }

  /** The number a string of decimal digits denotes (most significant first). */
  function DigitsValue(d: string): nat
    requires AllDigits(d)
    decreases |d|
  {
    if |d| == 0 then 0
    else 10 * DigitsValue(d[..|d| - 1]) + (d[|d| - 1] as int - '0' as int)
  }

  /** C `atoi`: skip white space, read an optional sign, then as many decimal
      digits as follow; a text without digits gives 0. */
  function Atoi(s: string): int
  {
    var t := SkipSpace(s);
    if |t| > 0 && t[0] == '-' then -(DigitsValue(LeadingDigits(t[1..])) as int)
    else if |t| > 0 && t[0] == '+' then DigitsValue(LeadingDigits(t[1..]))
    else DigitsValue(LeadingDigits(t))
  }

  /** The decimal digits of n, without leading zeros. */
  function Decimal(n: nat): (r: string)
    decreases n
    ensures |r| >= 1 && AllDigits(r)
    ensures DigitsValue(r) == n
  {
    var c := ('0' as int + n % 10) as char;
    if n < 10 then [c]
    else
      var d := Decimal(n / 10);
      assert (d + [c])[..|d + [c]| - 1] == d;
      d + [c]
  }

  /** Digits followed by something that is not a digit: exactly the digits are read. */
  lemma {:induction false} LeadingDigitsOfDigits(d: string, rest: string)
    requires AllDigits(d)
    requires |rest| == 0 || !IsDigit(rest[0])
    decreases |d|
    ensures LeadingDigits(d + rest) == d
  {
    if |d| > 0 {
      assert (d + rest)[1..] == d[1..] + rest;
      LeadingDigitsOfDigits(d[1..], rest);
      assert d == [d[0]] + d[1..];
    } else {
      assert d + rest == rest;
    }
  }

  /** `atoi` of digits followed by a non-digit. */
  lemma AtoiPos(d: string, rest: string)
    requires |d| >= 1 && AllDigits(d)
    requires |rest| == 0 || !IsDigit(rest[0])
    ensures Atoi(d + rest) == DigitsValue(d)
  {
    var s := d + rest;
    LeadingDigitsOfDigits(d, rest);
    assert s[0] == d[0];
    NoSkip(s);
    assert SkipSpace(s) == s;
    assert s[0] != '-' && s[0] != '+';
    assert LeadingDigits(s) == d;
  }

  /** `atoi` of a minus sign, digits and a non-digit. */
  lemma AtoiNeg(d: string, rest: string)
    requires |d| >= 1 && AllDigits(d)
    requires |rest| == 0 || !IsDigit(rest[0])
    ensures Atoi(['-'] + (d + rest)) == -(DigitsValue(d) as int)
  {
    var s := d + rest;
    LeadingDigitsOfDigits(d, rest);
    var m := ['-'] + s;
    NoSkip(m);
    assert m[0] == '-';
    assert m[1..] == s;
    assert LeadingDigits(m[1..]) == d;
  }

  /** A text that does not start with white space is not shortened by `SkipSpace`. */
  lemma NoSkip(s: string)
    requires |s| > 0 && !IsSpace(s[0])
    ensures SkipSpace(s) == s
  {
  }

  /** `atoi` reads back a decimal number, whatever non-digit follows it
      (a carriage return, a blank, nothing). */
  lemma AtoiDecimal(n: nat, rest: string)
    requires |rest| == 0 || !IsDigit(rest[0])
    ensures Atoi(Decimal(n) + rest) == n
    ensures Atoi(['-'] + (Decimal(n) + rest)) == -(n as int)
  {
    AtoiPos(Decimal(n), rest);
    AtoiNeg(Decimal(n), rest);
  }

  /** `atoi` of a text with no digit after the optional sign is 0, so a blank or
      empty field is never taken as a run id. */
  lemma AtoiNoDigits(s: string)
    requires forall k :: 0 <= k < |s| ==> !IsDigit(s[k])
    ensures Atoi(s) == 0
  {
    var t := SkipSpace(s);
    SkipSpaceSuffix(s);
    if |t| > 0 {
      assert t[0] == s[|s| - |t|];
      assert !IsDigit(t[0]);
      assert LeadingDigits(t) == "";
      if |t| > 1 {
        assert !IsDigit(t[1..][0]);
      }
      assert LeadingDigits(t[1..]) == "";
    }
  }

  /** The ids of the fields of one line: `atoi` of each field, kept when non-zero,
      converted to `UInt_t`. */
  function FieldIds(fields: seq<string>): set<uint32>
    decreases |fields|
  {
    if |fields| == 0 then {}
    else
      var f := fields[|fields| - 1];
      FieldIds(fields[..|fields| - 1]) + (if Atoi(f) != 0 then {ToUInt32(Atoi(f))} else {})
  }

  /** The ids one line of the file contributes. */
  function LineIds(line: string): set<uint32>
  {
    if |line| == 0 || line[0] == '#' then {} else FieldIds(Split(line, ','))
  }

  /** The ids a sequence of lines contributes. */
  function LinesIds(lines: seq<string>): set<uint32>
    decreases |lines|
  {
    if |lines| == 0 then {}
    else LinesIds(lines[..|lines| - 1]) + LineIds(lines[|lines| - 1])
  }

  /** Every run id the file text masks. A final newline leaves one empty last
      piece, which is skipped like any empty line. */
  function MaskedIds(text: string): set<uint32>
  {
    LinesIds(Split(text, '\n'))
  }

  /** A field yields an id iff its `atoi` value is non-zero. */
  lemma {:induction false} FieldIdsMember(fields: seq<string>, x: uint32)
    decreases |fields|
    ensures x in FieldIds(fields) <==>
      exists k :: 0 <= k < |fields| && Atoi(fields[k]) != 0 && ToUInt32(Atoi(fields[k])) == x
  {
    if |fields| > 0 {
      var init := fields[..|fields| - 1];
      FieldIdsMember(init, x);
      assert forall k :: 0 <= k < |init| ==> init[k] == fields[k];
      if x in FieldIds(init) {
        var k :| 0 <= k < |init| && Atoi(init[k]) != 0 && ToUInt32(Atoi(init[k])) == x;
        assert fields[k] == init[k];
      }
    }
  }

  /** The ids of a list of lines are those of its lines. */
  lemma {:induction false} LinesIdsMember(lines: seq<string>, x: uint32)
    decreases |lines|
    ensures x in LinesIds(lines) <==> exists k :: 0 <= k < |lines| && x in LineIds(lines[k])
  {
    if |lines| > 0 {
      var init := lines[..|lines| - 1];
      LinesIdsMember(init, x);
      assert forall k :: 0 <= k < |init| ==> init[k] == lines[k];
      if x in LinesIds(init) {
        var k :| 0 <= k < |init| && x in LineIds(init[k]);
        assert lines[k] == init[k];
      }
    }
  }

  /** The whole parse: an id is masked iff some line that is neither empty nor a
      comment has a comma-separated field whose non-zero `atoi` value converts
      to it. */
  lemma MaskedIdsMember(text: string, x: uint32)
    ensures x in MaskedIds(text) <==>
      exists line, f :: line in Split(text, '\n') && |line| > 0 && line[0] != '#' &&
        f in Split(line, ',') && Atoi(f) != 0 && ToUInt32(Atoi(f)) == x
  {
    var lines := Split(text, '\n');
    LinesIdsMember(lines, x);
    if x in MaskedIds(text) {
      var k :| 0 <= k < |lines| && x in LineIds(lines[k]);
      var line := lines[k];
      FieldIdsMember(Split(line, ','), x);
      var j :| 0 <= j < |Split(line, ',')| && Atoi(Split(line, ',')[j]) != 0 &&
        ToUInt32(Atoi(Split(line, ',')[j])) == x;
      assert Split(line, ',')[j] in Split(line, ',');
    }
    if exists line, f :: line in Split(text, '\n') && |line| > 0 && line[0] != '#' &&
        f in Split(line, ',') && Atoi(f) != 0 && ToUInt32(Atoi(f)) == x {
      var line, f :| line in lines && |line| > 0 && line[0] != '#' &&
        f in Split(line, ',') && Atoi(f) != 0 && ToUInt32(Atoi(f)) == x;
      var k :| 0 <= k < |lines| && lines[k] == line;
      var j :| 0 <= j < |Split(line, ',')| && Split(line, ',')[j] == f;
      FieldIdsMember(Split(line, ','), x);
    }
  }

  /** A negative field is kept and wraps to 2^32 - n as `UInt_t`. */
  lemma NegativeFieldWraps(n: nat)
    requires 0 < n < UINT32_MODULUS
    ensures FieldIds([['-'] + Decimal(n)]) == {UINT32_MODULUS - n}
  {
    var f := ['-'] + Decimal(n);
    AtoiDecimal(n, "");
    assert Decimal(n) + "" == Decimal(n);
    assert Atoi(f) == -(n as int);
    assert ToUInt32(-(n as int)) == UINT32_MODULUS - n;
    var fs := [f];
    assert fs[..0] == [];
    assert FieldIds(fs) == FieldIds([]) + {ToUInt32(Atoi(f))};
  }
}
