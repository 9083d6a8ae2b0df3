/**
 * One `dist` record of a source: a tabulated distribution written as an
 * `si<n>` line of abscissas and an `sp<n>` line of ordinates, or a canned
 * spectrum shape written as a single `sp<n>` line.
 */
module Distribution {
  import opened Wrappers
  import opened Tokens

  /** The arguments of one `dist(x, y, dist_num, spectrum_type, format)` call, less the number. */
  datatype DistArgs = DistArgs(x: seq<real>, y: seq<real>, spectrumType: Option<string>, format: Option<string>)

  /** A rendered distribution: its number and its text. */
  datatype Dist = Dist(distNum: int, distString: string)

  /** The Maxwellian branch formats a name that is never bound, so it raises NameError. */
  datatype DistError = UnboundShapeParameter

  /** Watt spectrum parameters a and b for U-235 induced fission. */
  const WATT_A: real := 0.988
  const WATT_B: real := 2.249

  /** A missing spectrum type or a one-character one selects the tabulated form. */
  predicate IsTabulated(spectrumType: Option<string>) {
    spectrumType.None? || |spectrumType.value| == 1
  }

  /** The tokens of the `si` line: the number, the tag if any, one token per abscissa. */
  function SiTokens(a: DistArgs, n: int, fmt: Formats): seq<string> {
    ["si" + FmtInt(n)]
      + (if a.spectrumType.Some? then [a.spectrumType.value] else [])
      + Map(fmt.sci, a.x)
  }

  /** The ordinate tokens: `%15.10e` without a format, `%d` for format "d", none for any other format. */
  function Ordinates(format: Option<string>, y: seq<real>, fmt: Formats): seq<string> {
    if format.None? then Map(fmt.sci, y)
    else if format.value == "d" then Map((v: real) => FmtInt(Trunc(v)), y)
    else []
  }

  function SpTokens(a: DistArgs, n: int, fmt: Formats): seq<string> {
    ["sp" + FmtInt(n)] + Ordinates(a.format, a.y, fmt)
  }

  function WattTokens(n: int, fmt: Formats): seq<string> {
    ["sp" + FmtInt(n), "-3", fmt.e(WATT_A), fmt.e(WATT_B)]
  }

  /** The lines of a distribution record, without their line breaks. */
  function Lines(a: DistArgs, n: int, fmt: Formats): seq<string> {
    if IsTabulated(a.spectrumType) then [Join(SiTokens(a, n, fmt), ' '), Join(SpTokens(a, n, fmt), ' ')]
    else if a.spectrumType.value == "Watt" then [Join(WattTokens(n, fmt), ' ')]
    else [""]
  }

  lemma WattLine(n: int, fmt: Formats)
    ensures Join(WattTokens(n, fmt), ' ') == "sp" + FmtInt(n) + " -3 " + fmt.e(WATT_A) + " " + fmt.e(WATT_B)
  {
    Join4("sp" + FmtInt(n), "-3", fmt.e(WATT_A), fmt.e(WATT_B), ' ');
  }

  lemma TwoLines(l1: string, l2: string)
    ensures Join([l1, l2], '\n') == l1 + "\n" + l2
  {
    assert [l1, l2][1..] == [l2];
  }

  /** The text of distribution `n`: every line followed by a line break, or the error the constructor raises. */
  function Render(a: DistArgs, n: int, fmt: Formats): Result<string, DistError> {
    if a.spectrumType == Some("Maxwellian") then Err(UnboundShapeParameter)
    else Ok(Join(Lines(a, n, fmt), '\n') + "\n")
  }

  /** A record is its lines, each ended by a line break, so splitting it at line breaks gives the lines and one empty remainder. */
  lemma {:induction false} RecordReadBack(lines: seq<string>)
    requires |lines| > 0
    requires forall k :: 0 <= k < |lines| ==> '\n' !in lines[k]
    ensures Split(Join(lines, '\n') + "\n", '\n') == lines + [""]
  {
    JoinSnoc(lines, "", '\n');
    assert Join(lines, '\n') + "\n" == Join(lines, '\n') + ['\n'] + "";
    SplitJoin(lines + [""], '\n');
  }

  lemma TwoLineRecord(l1: string, l2: string)
    requires '\n' !in l1 && '\n' !in l2
    ensures Split(Join([l1, l2], '\n') + "\n", '\n') == [l1, l2, ""]
  {
    RecordReadBack([l1, l2]);
    assert [l1, l2] + [""] == [l1, l2, ""];
  }

  lemma OneLineRecord(l: string)
    requires '\n' !in l
    ensures Split(Join([l], '\n') + "\n", '\n') == [l, ""]
  {
    RecordReadBack([l]);
    assert [l] + [""] == [l, ""];
  }

  /** The `si` tokens: the number, the tag when one is given, then one `%15.10e` token per abscissa. */
  lemma SiLayout(a: DistArgs, n: int, fmt: Formats)
    ensures var si := SiTokens(a, n, fmt); var h := if a.spectrumType.Some? then 2 else 1;
      && si[0] == "si" + FmtInt(n)
      && (a.spectrumType.Some? ==> si[1] == a.spectrumType.value)
      && |si| == h + |a.x|
      && forall k :: 0 <= k < |a.x| ==> si[h + k] == fmt.sci(a.x[k])
  {
    var head := ["si" + FmtInt(n)] + (if a.spectrumType.Some? then [a.spectrumType.value] else []);
    var m := Map(fmt.sci, a.x);
    assert SiTokens(a, n, fmt) == head + m;
    forall k | 0 <= k < |a.x| ensures (head + m)[|head| + k] == fmt.sci(a.x[k]) {
      assert (head + m)[|head| + k] == m[k];
    }
  }

  /** The `sp` tokens: the number, then one token per ordinate when the format is known. */
  lemma SpLayout(a: DistArgs, n: int, fmt: Formats)
    ensures var sp := SpTokens(a, n, fmt);
      && sp[0] == "sp" + FmtInt(n)
      && |sp| == 1 + (if a.format.None? || a.format == Some("d") then |a.y| else 0)
      && (a.format.None? ==> forall k :: 0 <= k < |a.y| ==> sp[1 + k] == fmt.sci(a.y[k]))
      && (a.format == Some("d") ==> forall k :: 0 <= k < |a.y| ==> sp[1 + k] == FmtInt(Trunc(a.y[k])))
  {
  }

  /**
   * A tabulated record is exactly two lines, `si<n> [tag] x...` and
   * `sp<n> y...`, each without a trailing blank, and splitting each line at
   * blanks gives back its tokens.
   */
  lemma TabulatedReadBack(a: DistArgs, n: int, fmt: Formats)
    requires fmt.Tokenish()
    requires IsTabulated(a.spectrumType)
    requires a.spectrumType.Some? ==> IsToken(a.spectrumType.value)
    ensures Render(a, n, fmt).Ok?
    ensures var ls := Split(Render(a, n, fmt).value, '\n');
      && |ls| == 3 && ls[2] == ""
      && Split(ls[0], ' ') == SiTokens(a, n, fmt)
      && Split(ls[1], ' ') == SpTokens(a, n, fmt)
      && ls[0][|ls[0]| - 1] != ' ' && ls[1][|ls[1]| - 1] != ' '
  {
    var si, sp := SiTokens(a, n, fmt), SpTokens(a, n, fmt);
    var l1, l2 := Join(si, ' '), Join(sp, ' ');
    assert Render(a, n, fmt) == Ok(Join([l1, l2], '\n') + "\n");
    SiTokensAreTokens(a, n, fmt);
    SpTokensAreTokens(a, n, fmt);
    TokensReadBack(si);
    TokensReadBack(sp);
    TwoLineRecord(l1, l2);
  }

  lemma SiTokensAreTokens(a: DistArgs, n: int, fmt: Formats)
    requires fmt.Tokenish()
    requires a.spectrumType.Some? ==> IsToken(a.spectrumType.value)
    ensures AllTokens(SiTokens(a, n, fmt))
  {
    var head := ["si" + FmtInt(n)] + (if a.spectrumType.Some? then [a.spectrumType.value] else []);
    var m := Map(fmt.sci, a.x);
    assert AllTokens(head) by {
      Glued("si", FmtInt(n));
    }
    assert AllTokens(m) by {
      forall k | 0 <= k < |m| ensures IsToken(m[k]) {
        Rendered(fmt, a.x[k]);
      }
    }
    AllTokensAppend(head, m);
  }

  lemma SpTokensAreTokens(a: DistArgs, n: int, fmt: Formats)
    requires fmt.Tokenish()
    ensures AllTokens(SpTokens(a, n, fmt))
  {
    var sp := SpTokens(a, n, fmt);
    SpLayout(a, n, fmt);
    forall k | 0 <= k < |sp| ensures IsToken(sp[k]) {
      if k == 0 {
        Glued("sp", FmtInt(n));
      } else if a.format.None? {
        assert sp[k] == fmt.sci(a.y[k - 1]);
        Rendered(fmt, a.y[k - 1]);
      }
    }
  }

  /**
   * The `%d` ordinates of a tabulated record read back as the integer parts
   * of the ordinates (`-21 1` for a radial distribution).
   */
  lemma IntOrdinatesReadBack(a: DistArgs, n: int, fmt: Formats)
    requires IsTabulated(a.spectrumType) && a.format == Some("d")
    ensures var sp := SpTokens(a, n, fmt);
      |sp| == 1 + |a.y| && forall k :: 0 <= k < |a.y| ==> ParseInt(sp[1 + k]) == Some(Trunc(a.y[k]))
  {
    forall k | 0 <= k < |a.y| ensures ParseInt(SpTokens(a, n, fmt)[1 + k]) == Some(Trunc(a.y[k])) {
      ParseFmtInt(Trunc(a.y[k]));
    }
  }

  /** The Watt record ignores whatever abscissas and ordinates were supplied: two Watt records with one number are equal. */
  lemma WattIgnoresData(a: DistArgs, b: DistArgs, n: int, fmt: Formats)
    requires a.spectrumType == Some("Watt") && b.spectrumType == Some("Watt")
    ensures Render(a, n, fmt).Ok? && Render(a, n, fmt) == Render(b, n, fmt)
  {
  }

  /** The Watt record is the single line `sp<n> -3 a b`, with a and b written by `%e`. */
  lemma WattReadBack(a: DistArgs, n: int, fmt: Formats)
    requires fmt.Tokenish()
    requires a.spectrumType == Some("Watt")
    ensures Render(a, n, fmt).Ok?
    ensures Split(Render(a, n, fmt).value, '\n') == [Join(WattTokens(n, fmt), ' '), ""]
    ensures Split(Join(WattTokens(n, fmt), ' '), ' ') == ["sp" + FmtInt(n), "-3", fmt.e(WATT_A), fmt.e(WATT_B)]
  {
    var w := WattTokens(n, fmt);
    assert Render(a, n, fmt) == Ok(Join([Join(w, ' ')], '\n') + "\n");
    assert AllTokens(w) by {
      Rendered(fmt, WATT_A);
      Rendered(fmt, WATT_B);
      Glued("sp", FmtInt(n));
    }
    TokensReadBack(w);
    OneLineRecord(Join(w, ' '));
  }

  /**
   * Which spectrum types give which record: tabulated ones two lines, Watt
   * one line, Maxwellian the NameError, and any other type a bare line break.
   */
  lemma RenderShapes(a: DistArgs, n: int, fmt: Formats)
    ensures Render(a, n, fmt).Err? <==> a.spectrumType == Some("Maxwellian")
    ensures Render(a, n, fmt).Ok? ==> |Lines(a, n, fmt)| == (if IsTabulated(a.spectrumType) then 2 else 1)
    ensures Render(a, n, fmt).Ok? && !IsTabulated(a.spectrumType) && a.spectrumType != Some("Watt") ==>
      Render(a, n, fmt).value == "\n"
  {
  }

  /** Every record ends with a line break. */
  lemma RecordEnds(a: DistArgs, n: int, fmt: Formats)
    requires Render(a, n, fmt).Ok?
    ensures var t := Render(a, n, fmt).value; |t| > 0 && t[|t| - 1] == '\n'
  {
  }

  /**
   * The last line of a tabulated or Watt record is not empty: the final
   * line break follows a character of its own. Any other record that
   * renders is a bare line break.
   */
  lemma LastLine(a: DistArgs, n: int, fmt: Formats, t: string)
    requires fmt.Tokenish() && Render(a, n, fmt) == Ok(t)
    ensures IsTabulated(a.spectrumType) || a.spectrumType == Some("Watt") ==> |t| >= 2 && t[|t| - 2] != '\n'
    ensures !IsTabulated(a.spectrumType) && a.spectrumType != Some("Watt") ==> t == "\n"
  {
    if IsTabulated(a.spectrumType) || a.spectrumType == Some("Watt") {
      LastLineFilled(a, n, fmt);
    }
  }

  lemma LastLineFilled(a: DistArgs, n: int, fmt: Formats)
    requires fmt.Tokenish()
    requires IsTabulated(a.spectrumType) || a.spectrumType == Some("Watt")
    ensures Render(a, n, fmt).Ok?
    ensures var t := Render(a, n, fmt).value; |t| >= 2 && t[|t| - 2] != '\n'
  {
    var ls := Lines(a, n, fmt);
    var last := ls[|ls| - 1];
    assert |last| > 0 && '\n' !in last by {
      if IsTabulated(a.spectrumType) {
        SpTokensAreTokens(a, n, fmt);
        TokensReadBack(SpTokens(a, n, fmt));
      } else {
        assert AllTokens(WattTokens(n, fmt)) by {
          Rendered(fmt, WATT_A);
          Rendered(fmt, WATT_B);
          Glued("sp", FmtInt(n));
        }
        TokensReadBack(WattTokens(n, fmt));
      }
    }
    JoinEndsWith(ls, '\n');
    var j := Join(ls, '\n');
    assert j[|j| - 1] == last[|last| - 1];
    assert Render(a, n, fmt).value == j + "\n";
  }

  /** A tabulated record is its `si` line and its `sp` line, each followed by a line break. */
  lemma TabulatedText(a: DistArgs, n: int, fmt: Formats, si: string, sp: string)
    requires IsTabulated(a.spectrumType)
    requires si == Join(SiTokens(a, n, fmt), ' ') && sp == Join(SpTokens(a, n, fmt), ' ')
    ensures Render(a, n, fmt) == Ok("" + si + "\n" + sp + "\n")
  {
    assert Lines(a, n, fmt) == [si, sp];
    TwoLines(si, sp);
    assert "" + si == si;
  }

  /** A Watt record is the line `sp<n> -3 a b` followed by a line break. */
  lemma WattText(a: DistArgs, n: int, fmt: Formats)
    requires a.spectrumType == Some("Watt")
    ensures Render(a, n, fmt) == Ok("" + "sp" + FmtInt(n) + " -3 " + fmt.e(WATT_A) + " " + fmt.e(WATT_B) + "\n")
  {
    WattLine(n, fmt);
    assert Lines(a, n, fmt) == [Join(WattTokens(n, fmt), ' ')];
    assert "" + "sp" == "sp";
  }

  /** One more ordinate adds its token, unless the format writes none. */
  lemma OrdinatesSnoc(format: Option<string>, y: seq<real>, i: nat, fmt: Formats)
    requires i < |y|
    ensures Ordinates(format, y[..i + 1], fmt) == Ordinates(format, y[..i], fmt) +
      (if format.None? then [fmt.sci(y[i])] else if format.value == "d" then [FmtInt(Trunc(y[i]))] else [])
  {
    if format.None? {
      MapSnoc(fmt.sci, y, i);
    } else if format.value == "d" {
      MapSnoc((v: real) => FmtInt(Trunc(v)), y, i);
    }
  }

  /**
   * The loop over `x` in `dist.__init__`: the `si` header, each abscissa as
   * `%15.10e` followed by a blank, then the last blank trimmed.
   */
  method WriteSi(a: DistArgs, distNum: int, fmt: Formats) returns (line: string)
    ensures line == Join(SiTokens(a, distNum, fmt), ' ')
  {
    line := "si" + FmtInt(distNum) + " ";
    if a.spectrumType.Some? {
      line := line + a.spectrumType.value + " ";
    }
    ghost var head := if a.spectrumType.Some? then ["si" + FmtInt(distNum), a.spectrumType.value] else ["si" + FmtInt(distNum)];
    assert line == Join(head, ' ') + " " by {
      if a.spectrumType.Some? {
        assert head[1..] == [a.spectrumType.value];
      }
    }
    for i := 0 to |a.x|
      invariant line == Join(head + Map(fmt.sci, a.x[..i]), ' ') + " "
    {
      assert line + fmt.sci(a.x[i]) + " " == Join(head + Map(fmt.sci, a.x[..i + 1]), ' ') + " " by {
        MapSnoc(fmt.sci, a.x, i);
        AppendAssoc3(head, Map(fmt.sci, a.x[..i]), [fmt.sci(a.x[i])]);
        EmitToken(line, head + Map(fmt.sci, a.x[..i]), fmt.sci(a.x[i]));
      }
      line := line + fmt.sci(a.x[i]) + " ";
    }
    assert line == Join(SiTokens(a, distNum, fmt), ' ') + " " by {
      assert a.x[..|a.x|] == a.x;
    }
    line := line[..|line| - 1];
  }

  /**
   * The loop over `y`: the `sp` header, each ordinate in the requested
   * format followed by a blank, then the last blank trimmed.
   */
  method WriteSp(a: DistArgs, distNum: int, fmt: Formats) returns (line: string)
    ensures line == Join(SpTokens(a, distNum, fmt), ' ')
  {
    line := "sp" + FmtInt(distNum) + " ";
    ghost var head := ["sp" + FmtInt(distNum)];
    for i := 0 to |a.y|
      invariant line == Join(head + Ordinates(a.format, a.y[..i], fmt), ' ') + " "
    {
      ghost var done := head + Ordinates(a.format, a.y[..i], fmt);
      if a.format.None? {
        assert line + fmt.sci(a.y[i]) + " " == Join(head + Ordinates(a.format, a.y[..i + 1], fmt), ' ') + " " by {
          OrdinatesSnoc(a.format, a.y, i, fmt);
          AppendAssoc3(head, Ordinates(a.format, a.y[..i], fmt), [fmt.sci(a.y[i])]);
          EmitToken(line, done, fmt.sci(a.y[i]));
        }
        line := line + fmt.sci(a.y[i]) + " ";
      } else if a.format.value == "d" {
        assert line + FmtInt(Trunc(a.y[i])) + " " == Join(head + Ordinates(a.format, a.y[..i + 1], fmt), ' ') + " " by {
          OrdinatesSnoc(a.format, a.y, i, fmt);
          AppendAssoc3(head, Ordinates(a.format, a.y[..i], fmt), [FmtInt(Trunc(a.y[i]))]);
          EmitToken(line, done, FmtInt(Trunc(a.y[i])));
        }
        line := line + FmtInt(Trunc(a.y[i])) + " ";
      } else {
        OrdinatesSnoc(a.format, a.y, i, fmt);
      }
    }
    assert a.y[..|a.y|] == a.y;
    line := line[..|line| - 1];
  }

  /**
   * `dist.__init__`: a tabulated record is its `si` line and its `sp` line,
   * a Watt record one canned `sp` line; every record ends with a line break.
   */
  method NewDist(a: DistArgs, distNum: int, fmt: Formats) returns (r: Result<Dist, DistError>)
    ensures r.Err? <==> Render(a, distNum, fmt).Err?
    ensures r.Ok? ==> r.value == Dist(distNum, Render(a, distNum, fmt).value)
  {
    var s := "";
    if IsTabulated(a.spectrumType) {
      var si := WriteSi(a, distNum, fmt);
      s := s + si + "\n";
      var sp := WriteSp(a, distNum, fmt);
      s := s + sp;
      TabulatedText(a, distNum, fmt, si, sp);
    } else if a.spectrumType.value == "Maxwellian" {
      return Err(UnboundShapeParameter);
    } else if a.spectrumType.value == "Watt" {
      s := s + "sp" + FmtInt(distNum) + " -3 " + fmt.e(WATT_A) + " " + fmt.e(WATT_B);
      WattText(a, distNum, fmt);
    } else {
      assert Lines(a, distNum, fmt) == [""];
    }
    s := s + "\n";
    r := Ok(Dist(distNum, s));
  }
}
