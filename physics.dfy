/**
 * The physics encoder: a comment naming the particles, and an append-only
 * block of deck lines (`mode`, the per-particle `phys:`/`cut:` cards, then
 * `nps`, `ctme`, `nonu` and the MCNP-Polimi `ipol`/`files` cards), each
 * line ended by a line break.
 */
module Physics {
  import opened Wrappers
  import opened Tokens

  /** An element of the list given to `polimi`: an int, a cell object (its `cell_num`), or anything else. */
  datatype CellRef = IntCell(n: int) | CellObject(cellNum: int) | OtherValue

  /** The energy bounds, in MeV, used when none is given. */
  const DEFAULT_MAX_E: real := 20.0
  const DEFAULT_MIN_E: real := 0.00000001

  /** The words the comment starts with, before the particles. */
  const COMMENT_WORDS: seq<string> := ["c", "---", "default", "physics", "for"]

  /** The fixed words of the `ipol` card before the cell count. */
  const IPOL_WORDS: seq<string> := ["ipol", "0", "0", "0", "0", "2J"]

  /** Each line followed by a line break. */
  function Unlines(ls: seq<string>): string {
    if ls == [] then "" else Unlines(ls[..|ls| - 1]) + ls[|ls| - 1] + "\n"
  }

  /** The comment: the words then the particles, separated by single blanks. */
  function CommentText(particles: seq<string>): string {
    Join(COMMENT_WORDS + particles, ' ')
  }

  /** The `mode` line: `mode` then the particles, separated by single blanks. */
  function ModeLine(particles: seq<string>): string {
    Join(["mode"] + particles, ' ')
  }

  /** The photon cards, then the neutron cards, each present only when its particle is. */
  function ParticleLines(particles: seq<string>, maxE: real, minE: real, fmt: Formats): seq<string> {
    (if "p" in particles then ["phys:p " + fmt.e(maxE) + " 0 1 -1 2J 1", "cut:p " + fmt.e(maxE) + " J 0 0"] else [])
    + (if "n" in particles then ["phys:n " + fmt.e(maxE), "cut:n j " + fmt.e(minE)] else [])
  }

  function NpsLine(num: real, fmt: Formats): string {
    "nps " + fmt.e(num)
  }

  function CtmeLine(num: real, fmt: Formats): string {
    "ctme " + fmt.e(num)
  }

  /** The numbers `polimi` writes: ints as they are, cell objects as their `cell_num`, other values not at all. */
  function CellNumbers(cells: seq<CellRef>): (r: seq<string>)
    ensures |r| <= |cells|
  {
    if cells == [] then []
    else
      CellNumbers(cells[..|cells| - 1])
      + match cells[|cells| - 1]
        case IntCell(n) => [FmtInt(n)]
        case CellObject(n) => [FmtInt(n)]
        case OtherValue => []
  }

  /** The tokens of the `ipol` card: the fixed words, the length of the list, then the numbers. */
  function IpolTokens(cells: seq<CellRef>): seq<string> {
    IPOL_WORDS + [FmtInt(|cells|)] + CellNumbers(cells)
  }

  function PolimiLines(cells: seq<CellRef>): seq<string> {
    [Join(IpolTokens(cells), ' '), "files 21 DUMN1"]
  }

  /** The lines the constructor writes after the particle cards: nps, ctme, polimi, each when requested. */
  function OptionLines(nps: Option<real>, ctme: Option<real>, polimi: bool, cells: seq<CellRef>, fmt: Formats): seq<string> {
    (if nps.Some? then [NpsLine(nps.value, fmt)] else [])
    + (if ctme.Some? then [CtmeLine(ctme.value, fmt)] else [])
    + (if polimi then PolimiLines(cells) else [])
  }

  /** Every line the constructor writes, in order. */
  function InitLines(particles: seq<string>, maxE: real, minE: real, nps: Option<real>, ctme: Option<real>,
                     polimi: bool, cells: seq<CellRef>, fmt: Formats): seq<string> {
    [ModeLine(particles)] + ParticleLines(particles, maxE, minE, fmt) + OptionLines(nps, ctme, polimi, cells, fmt)
  }

  lemma {:induction false} UnlinesAppend(a: seq<string>, b: seq<string>)
    ensures Unlines(a + b) == Unlines(a) + Unlines(b)
  {
    if b != [] {
      assert (a + b)[..|a + b| - 1] == a + b[..|b| - 1];
      UnlinesAppend(a, b[..|b| - 1]);
    } else {
      assert a + b == a;
    }
  }

  /** Lines followed by line breaks are the lines joined by line breaks, plus the last break. */
  lemma {:induction false} UnlinesJoin(ls: seq<string>)
    requires |ls| > 0
    ensures Unlines(ls) == Join(ls, '\n') + "\n"
  {
    if |ls| > 1 {
      var init := ls[..|ls| - 1];
      UnlinesJoin(init);
      JoinSnoc(init, ls[|ls| - 1], '\n');
      assert init + [ls[|ls| - 1]] == ls;
    }
  }

  /** Writing three blocks one after another writes the block of all their lines. */
  lemma {:induction false} BlockOfThree(t0: string, a: seq<string>, b: seq<string>, c: seq<string>, t1: string, t2: string, t3: string)
    requires t1 == t0 + Unlines(a) && t2 == t1 + Unlines(b) && t3 == t2 + Unlines(c)
    ensures t3 == t0 + Unlines(a + b + c)
  {
    UnlinesAppend(a, b);
    UnlinesAppend(a + b, c);
  }

  /** A non-empty block ends with a line break. */
  lemma {:induction false} UnlinesEnds(ls: seq<string>)
    requires |ls| > 0
    ensures var t := Unlines(ls); |t| > 0 && t[|t| - 1] == '\n'
  {
  }

  lemma {:induction false} UnlinesPair(a: string, b: string)
    ensures Unlines([a, b]) == a + "\n" + b + "\n"
  {
    assert [a, b][..1] == [a] && [a][..0] == [];
    assert Unlines([a]) == a + "\n";
    assert Unlines([a, b]) == Unlines([a]) + b + "\n";
  }

  /** Appending two lines to a block that ends a sequence of lines. */
  lemma {:induction false} AppendPair(t: string, lines: seq<string>, a: string, b: string)
    requires t == Unlines(lines)
    ensures t + (a + "\n") + (b + "\n") == Unlines(lines + [a, b])
  {
    UnlinesAppend(lines, [a, b]);
    UnlinesPair(a, b);
  }

  lemma {:induction false} AppendOne(t: string, lines: seq<string>, a: string)
    requires t == Unlines(lines)
    ensures t + (a + "\n") == Unlines(lines + [a])
  {
    assert (lines + [a])[..|lines|] == lines;
  }

  /** No line contains a line break of its own. */
  predicate NoBreaks(ls: seq<string>) {
    forall k :: 0 <= k < |ls| ==> '\n' !in ls[k]
  }

  lemma NoBreaksAppend(a: seq<string>, b: seq<string>)
    requires NoBreaks(a) && NoBreaks(b)
    ensures NoBreaks(a + b)
  {
    forall k | 0 <= k < |a + b| ensures '\n' !in (a + b)[k] {
      if k >= |a| {
        assert (a + b)[k] == b[k - |a|];
      }
    }
  }

  /** A block of lines without line breaks of their own splits back into those lines and an empty remainder. */
  lemma {:induction false} BlockReadBack(ls: seq<string>)
    requires |ls| > 0
    requires NoBreaks(ls)
    ensures Split(Unlines(ls), '\n') == ls + [""]
  {
    UnlinesJoin(ls);
    JoinSnoc(ls, "", '\n');
    assert Join(ls, '\n') + "\n" == Join(ls, '\n') + ['\n'] + "";
    SplitJoin(ls + [""], '\n');
  }

  /**
   * What the mutators append keeps the block readable: the block built so
   * far followed by more lines splits back into all the lines in order.
   */
  lemma {:induction false} AppendedReadBack(ls: seq<string>, more: seq<string>)
    requires |ls| > 0 && NoBreaks(ls) && NoBreaks(more)
    ensures Split(Unlines(ls) + Unlines(more), '\n') == ls + more + [""]
  {
    UnlinesAppend(ls, more);
    NoBreaksAppend(ls, more);
    BlockReadBack(ls + more);
  }

  lemma CommentPrefix()
    ensures Join(COMMENT_WORDS, ' ') + " " == "c --- default physics for "
  {
    Join4("---", "default", "physics", "for", ' ');
    assert COMMENT_WORDS[1..] == ["---", "default", "physics", "for"];
  }

  lemma IpolPrefix()
    ensures Join(IPOL_WORDS, ' ') + " " == "ipol 0 0 0 0 2J "
  {
    Join3("0", "0", "2J", ' ');
    assert IPOL_WORDS[3..] == ["0", "0", "2J"];
    assert IPOL_WORDS[2..][1..] == IPOL_WORDS[3..];
    assert IPOL_WORDS[1..][1..] == IPOL_WORDS[2..];
    assert IPOL_WORDS[1..] == ["0", "0", "0", "0", "2J"];
  }

  /**
   * The comment and the `mode` line list the same particles in the same
   * order: split at blanks, each reads back as its leading words followed
   * by the particles.
   */
  lemma {:induction false} CommentMatchesMode(particles: seq<string>)
    requires AllTokens(particles)
    ensures Split(CommentText(particles), ' ') == COMMENT_WORDS + particles
    ensures Split(ModeLine(particles), ' ') == ["mode"] + particles
    ensures Split(CommentText(particles), ' ')[|COMMENT_WORDS|..] == Split(ModeLine(particles), ' ')[1..]
  {
    assert AllTokens(COMMENT_WORDS) && AllTokens(["mode"]);
    AllTokensAppend(COMMENT_WORDS, particles);
    AllTokensAppend(["mode"], particles);
    TokensReadBack(COMMENT_WORDS + particles);
    TokensReadBack(["mode"] + particles);
    assert (COMMENT_WORDS + particles)[|COMMENT_WORDS|..] == particles;
    assert (["mode"] + particles)[1..] == particles;
  }

  /** Only the tags `p` and `n` produce cards, two each; any other tag produces none. */
  lemma CardCount(particles: seq<string>, maxE: real, minE: real, fmt: Formats)
    ensures |ParticleLines(particles, maxE, minE, fmt)| == (if "p" in particles then 2 else 0) + (if "n" in particles then 2 else 0)
    ensures forall q :: ("p" in q <==> "p" in particles) && ("n" in q <==> "n" in particles) ==>
      ParticleLines(q, maxE, minE, fmt) == ParticleLines(particles, maxE, minE, fmt)
  {
  }

  /**
   * Whatever order the particles come in, the photon cards come before the
   * neutron cards: with both present, the `phys:p` line is line 2 of the
   * block and the `phys:n` line is line 4.
   */
  lemma {:induction false} PhotonCardsFirst(particles: seq<string>, maxE: real, minE: real, nps: Option<real>, ctme: Option<real>,
                         polimi: bool, cells: seq<CellRef>, fmt: Formats)
    requires "p" in particles && "n" in particles
    ensures var ls := InitLines(particles, maxE, minE, nps, ctme, polimi, cells, fmt);
      |ls| >= 5 && ls[1] == "phys:p " + fmt.e(maxE) + " 0 1 -1 2J 1" && ls[2] == "cut:p " + fmt.e(maxE) + " J 0 0"
      && ls[3] == "phys:n " + fmt.e(maxE) && ls[4] == "cut:n j " + fmt.e(minE)
    ensures forall q :: multiset(q) == multiset(particles) ==>
      InitLines(q, maxE, minE, nps, ctme, polimi, cells, fmt)[1..] == InitLines(particles, maxE, minE, nps, ctme, polimi, cells, fmt)[1..]
  {
    forall q | multiset(q) == multiset(particles)
      ensures InitLines(q, maxE, minE, nps, ctme, polimi, cells, fmt)[1..] == InitLines(particles, maxE, minE, nps, ctme, polimi, cells, fmt)[1..]
    {
      assert "p" in q <==> "p" in multiset(q);
      assert "n" in q <==> "n" in multiset(q);
      assert "p" in particles <==> "p" in multiset(particles);
      assert "n" in particles <==> "n" in multiset(particles);
    }
  }

  /**
   * The `ipol` card counts every element of the list, whether or not it was
   * written: its count reads back as the length, the numbers follow it, and
   * only the elements that are neither ints nor cells are missing.
   */
  lemma {:induction false} IpolReadBack(cells: seq<CellRef>)
    ensures var toks := Split(Join(IpolTokens(cells), ' '), ' ');
      |toks| == 7 + |CellNumbers(cells)| && toks[..6] == IPOL_WORDS && ParseInt(toks[6]) == Some(|cells|) && toks[7..] == CellNumbers(cells)
    ensures |CellNumbers(cells)| == |cells| <==> forall k :: 0 <= k < |cells| ==> !cells[k].OtherValue?
  {
    IpolTokensAreTokens(cells);
    TokensReadBack(IpolTokens(cells));
    IpolParts(cells);
    ParseFmtInt(|cells|);
    CountWritten(cells);
  }

  lemma IpolTokensAreTokens(cells: seq<CellRef>)
    ensures AllTokens(IpolTokens(cells))
  {
    NumbersAreTokens(cells);
    assert AllTokens(IPOL_WORDS + [FmtInt(|cells|)]);
    AllTokensAppend(IPOL_WORDS + [FmtInt(|cells|)], CellNumbers(cells));
  }

  /** The `ipol` tokens are the six fixed words, the count, then the numbers. */
  lemma IpolParts(cells: seq<CellRef>)
    ensures var toks := IpolTokens(cells);
      && |toks| == 7 + |CellNumbers(cells)|
      && toks[..6] == IPOL_WORDS && toks[6] == FmtInt(|cells|) && toks[7..] == CellNumbers(cells)
  {
  }

  lemma {:induction false} NumbersAreTokens(cells: seq<CellRef>)
    ensures AllTokens(CellNumbers(cells))
  {
    if cells != [] {
      NumbersAreTokens(cells[..|cells| - 1]);
      var last := match cells[|cells| - 1]
        case IntCell(n) => [FmtInt(n)]
        case CellObject(n) => [FmtInt(n)]
        case OtherValue => [];
      AllTokensAppend(CellNumbers(cells[..|cells| - 1]), last);
    }
  }

  /** Every element is written exactly when none of them is skipped. */
  lemma {:induction false} CountWritten(cells: seq<CellRef>)
    ensures |CellNumbers(cells)| == |cells| <==> forall k :: 0 <= k < |cells| ==> !cells[k].OtherValue?
  {
    if cells != [] {
      var init := cells[..|cells| - 1];
      CountWritten(init);
      assert forall k :: 0 <= k < |init| ==> init[k] == cells[k];
    }
  }

  /** The `ipol` card is its fixed prefix followed by the count and the numbers. */
  lemma IpolLine(cells: seq<CellRef>)
    ensures Join(IpolTokens(cells), ' ') == "ipol 0 0 0 0 2J " + Join([FmtInt(|cells|)] + CellNumbers(cells), ' ')
  {
    assert IpolTokens(cells) == IPOL_WORDS + ([FmtInt(|cells|)] + CellNumbers(cells));
    JoinAppend(IPOL_WORDS, [FmtInt(|cells|)] + CellNumbers(cells), ' ');
    IpolPrefix();
  }

  lemma TwoIntsWritten()
    ensures [FmtInt(2)] + CellNumbers([IntCell(10), IntCell(20)]) == ["2", "10", "20"]
  {
    var ab := [IntCell(10), IntCell(20)];
    assert FmtInt(2) == "2" && FmtInt(10) == "10" && FmtInt(20) == "20";
    assert ab[..1] == [IntCell(10)];
  }

  /** A list of two ints: `ipol 0 0 0 0 2J 2 10 20`. */
  lemma TwoInts()
    ensures Join(IpolTokens([IntCell(10), IntCell(20)]), ' ') == "ipol 0 0 0 0 2J 2 10 20"
  {
    var ab := [IntCell(10), IntCell(20)];
    assert Join(IpolTokens(ab), ' ') == "ipol 0 0 0 0 2J " + "2 10 20" by {
      TwoIntsWritten();
      IpolLine(ab);
      Join3("2", "10", "20", ' ');
    }
    assert "ipol 0 0 0 0 2J " + "2 10 20" == "ipol 0 0 0 0 2J 2 10 20";
  }

  /** A list of an int and another value: the count is 2, but only `10` is written. */
  lemma IntAndOther()
    ensures Join(IpolTokens([IntCell(10), OtherValue]), ' ') == "ipol 0 0 0 0 2J 2 10"
  {
    var ao := [IntCell(10), OtherValue];
    assert Join(IpolTokens(ao), ' ') == "ipol 0 0 0 0 2J " + "2 10" by {
      assert [FmtInt(|ao|)] + CellNumbers(ao) == ["2", "10"] by {
        assert FmtInt(2) == "2" && FmtInt(10) == "10";
        assert ao[..1] == [IntCell(10)];
      }
      IpolLine(ao);
      assert ["2", "10"][1..] == ["10"];
    }
    assert "ipol 0 0 0 0 2J " + "2 10" == "ipol 0 0 0 0 2J 2 10";
  }

  lemma CardsHaveNoBreaks(particles: seq<string>, maxE: real, minE: real, fmt: Formats)
    requires fmt.Tokenish()
    ensures NoBreaks(ParticleLines(particles, maxE, minE, fmt))
  {
    Rendered(fmt, maxE);
    Rendered(fmt, minE);
  }

  lemma OptionsHaveNoBreaks(nps: Option<real>, ctme: Option<real>, polimi: bool, cells: seq<CellRef>, fmt: Formats)
    requires fmt.Tokenish()
    ensures NoBreaks(OptionLines(nps, ctme, polimi, cells, fmt))
  {
    var a: seq<string> := if nps.Some? then [NpsLine(nps.value, fmt)] else [];
    var b: seq<string> := if ctme.Some? then [CtmeLine(ctme.value, fmt)] else [];
    var c: seq<string> := if polimi then PolimiLines(cells) else [];
    assert NoBreaks(a) by {
      if nps.Some? {
        Rendered(fmt, nps.value);
      }
    }
    assert NoBreaks(b) by {
      if ctme.Some? {
        Rendered(fmt, ctme.value);
      }
    }
    assert NoBreaks(c) by {
      NumbersAreTokens(cells);
      JoinAvoids(IpolTokens(cells), ' ', '\n');
    }
    NoBreaksAppend(a, b);
    NoBreaksAppend(a + b, c);
  }

  /** The whole constructed block reads back as its lines. */
  lemma {:induction false} InitReadBack(particles: seq<string>, maxE: real, minE: real, nps: Option<real>, ctme: Option<real>,
                     polimi: bool, cells: seq<CellRef>, fmt: Formats)
    requires fmt.Tokenish() && forall k :: 0 <= k < |particles| ==> '\n' !in particles[k]
    ensures var ls := InitLines(particles, maxE, minE, nps, ctme, polimi, cells, fmt);
      Split(Unlines(ls), '\n') == ls + [""]
  {
    var ls := InitLines(particles, maxE, minE, nps, ctme, polimi, cells, fmt);
    var mode, cards, opts := [ModeLine(particles)], ParticleLines(particles, maxE, minE, fmt), OptionLines(nps, ctme, polimi, cells, fmt);
    assert NoBreaks(mode) by {
      JoinAvoids(["mode"] + particles, ' ', '\n');
    }
    assert NoBreaks(cards) by {
      CardsHaveNoBreaks(particles, maxE, minE, fmt);
    }
    assert NoBreaks(opts) by {
      OptionsHaveNoBreaks(nps, ctme, polimi, cells, fmt);
    }
    NoBreaksAppend(mode, cards);
    NoBreaksAppend(mode + cards, opts);
    BlockReadBack(ls);
  }

  /**
   * The loop of `phys.__init__` over the particles: each particle and a
   * blank go onto both the comment and the `mode` line, whose last blanks
   * are then trimmed.
   */
  method ListParticles(particles: seq<string>) returns (comment: string, mode: string)
    ensures comment == CommentText(particles) && mode == ModeLine(particles)
  {
    comment := "c --- default physics for ";
    mode := "mode ";
    CommentPrefix();
    assert particles[..0] == [] && COMMENT_WORDS + [] == COMMENT_WORDS;
    for i := 0 to |particles|
      invariant comment == Join(COMMENT_WORDS + particles[..i], ' ') + " "
      invariant mode == Join(["mode"] + particles[..i], ' ') + " "
    {
      assert particles[..i + 1] == particles[..i] + [particles[i]];
      assert comment + particles[i] + " " == Join(COMMENT_WORDS + particles[..i + 1], ' ') + " " by {
        EmitToken(comment, COMMENT_WORDS + particles[..i], particles[i]);
        AppendAssoc3(COMMENT_WORDS, particles[..i], [particles[i]]);
      }
      assert mode + particles[i] + " " == Join(["mode"] + particles[..i + 1], ' ') + " " by {
        EmitToken(mode, ["mode"] + particles[..i], particles[i]);
        AppendAssoc3(["mode"], particles[..i], [particles[i]]);
      }
      comment := comment + particles[i] + " ";
      mode := mode + particles[i] + " ";
    }
    assert particles[..|particles|] == particles;
    comment := comment[..|comment| - 1];
    mode := mode[..|mode| - 1];
  }

  /**
   * The loop of `polimi` over the cells: the header with the length of the
   * list, then each int or cell number followed by a blank, then the last
   * blank trimmed.
   */
  method IpolCard(cells: seq<CellRef>) returns (line: string)
    ensures line == Join(IpolTokens(cells), ' ')
  {
    ghost var head := IPOL_WORDS + [FmtInt(|cells|)];
    line := "ipol 0 0 0 0 2J " + FmtInt(|cells|) + " ";
    assert line == Join(head, ' ') + " " by {
      IpolPrefix();
      EmitToken("ipol 0 0 0 0 2J ", IPOL_WORDS, FmtInt(|cells|));
    }
    assert cells[..0] == [] && head + [] == head;
    for i := 0 to |cells|
      invariant line == Join(head + CellNumbers(cells[..i]), ' ') + " "
    {
      ghost var done := head + CellNumbers(cells[..i]);
      assert cells[..i + 1][..i] == cells[..i] && cells[..i + 1][i] == cells[i];
      match cells[i] {
        case IntCell(n) =>
          assert line + FmtInt(n) + " " == Join(head + CellNumbers(cells[..i + 1]), ' ') + " " by {
            EmitToken(line, done, FmtInt(n));
            assert done + [FmtInt(n)] == head + CellNumbers(cells[..i + 1]);
          }
          line := line + FmtInt(n) + " ";
        case CellObject(n) =>
          assert line + FmtInt(n) + " " == Join(head + CellNumbers(cells[..i + 1]), ' ') + " " by {
            EmitToken(line, done, FmtInt(n));
            assert done + [FmtInt(n)] == head + CellNumbers(cells[..i + 1]);
          }
          line := line + FmtInt(n) + " ";
        case OtherValue =>
          assert CellNumbers(cells[..i + 1]) == CellNumbers(cells[..i]);
      }
    }
    assert cells[..|cells|] == cells;
    line := line[..|line| - 1];
  }

  /** The photon and neutron cards of `phys.__init__`, each line followed by a line break. */
  method ParticleCards(particles: seq<string>, maxE: real, minE: real, fmt: Formats) returns (cards: string)
    ensures cards == Unlines(ParticleLines(particles, maxE, minE, fmt))
  {
    cards := "";
    ghost var lines: seq<string> := [];
    if "p" in particles {
      AppendPair(cards, lines, "phys:p " + fmt.e(maxE) + " 0 1 -1 2J 1", "cut:p " + fmt.e(maxE) + " J 0 0");
      cards := cards + ("phys:p " + fmt.e(maxE) + " 0 1 -1 2J 1\n");
      cards := cards + ("cut:p " + fmt.e(maxE) + " J 0 0\n");
      lines := lines + ["phys:p " + fmt.e(maxE) + " 0 1 -1 2J 1", "cut:p " + fmt.e(maxE) + " J 0 0"];
    }
    if "n" in particles {
      AppendPair(cards, lines, "phys:n " + fmt.e(maxE), "cut:n j " + fmt.e(minE));
      cards := cards + ("phys:n " + fmt.e(maxE) + "\n");
      cards := cards + ("cut:n j " + fmt.e(minE) + "\n");
      lines := lines + ["phys:n " + fmt.e(maxE), "cut:n j " + fmt.e(minE)];
    }
    assert lines == ParticleLines(particles, maxE, minE, fmt);
  }

  /**
   * `phys`: the comment, the text block and the energy bounds. The block
   * only grows, and always ends with a line break.
   */
  class Phys {
    var comment: string
    var text: string
    var maxE: real
    var minE: real

    ghost predicate Valid()
      reads this
    {
      |text| > 0 && text[|text| - 1] == '\n'
    }

    /**
     * `phys.__init__`: writes the comment and the `mode` line from the
     * particles, the photon and neutron cards, then the nps, ctme and
     * polimi cards that were requested. `particles` must be a list.
     */
    constructor (particles: seq<string>, maxE: Option<real>, minE: Option<real>, nps: Option<real>,
                 ctme: Option<real>, polimi: bool, polimiCells: seq<CellRef>, fmt: Formats)
      ensures Valid()
      ensures this.maxE == (if maxE.None? then DEFAULT_MAX_E else maxE.value)
      ensures this.minE == (if minE.None? then DEFAULT_MIN_E else minE.value)
      ensures comment == CommentText(particles)
      ensures text == Unlines(InitLines(particles, this.maxE, this.minE, nps, ctme, polimi, polimiCells, fmt))
    {
      var hi := if maxE.None? then DEFAULT_MAX_E else maxE.value;
      var lo := if minE.None? then DEFAULT_MIN_E else minE.value;
      this.maxE := hi;
      this.minE := lo;
      var c, mode := ListParticles(particles);
      comment := c;
      var cards := ParticleCards(particles, hi, lo, fmt);
      var t := mode + "\n" + cards;
      text := t;
      ghost var base := [ModeLine(particles)] + ParticleLines(particles, hi, lo, fmt);
      assert t == Unlines(base) by {
        AppendOne("", [], mode);
        assert [] + [mode] == [ModeLine(particles)];
        UnlinesAppend([ModeLine(particles)], ParticleLines(particles, hi, lo, fmt));
      }
      new;
      assert Valid() by {
        UnlinesEnds(base);
      }
      WriteOptions(nps, ctme, polimi, polimiCells, fmt);
      UnlinesAppend(base, OptionLines(nps, ctme, polimi, polimiCells, fmt));
    }

    /** The nps, ctme and polimi cards of `phys.__init__`, each written by its own mutator. */
    method WriteOptions(nps: Option<real>, ctme: Option<real>, polimi: bool, cells: seq<CellRef>, fmt: Formats)
      requires Valid()
      modifies this
      ensures Valid()
      ensures text == old(text) + Unlines(OptionLines(nps, ctme, polimi, cells, fmt))
      ensures comment == old(comment) && maxE == old(maxE) && minE == old(minE)
    {
      ghost var a: seq<string> := if nps.Some? then [NpsLine(nps.value, fmt)] else [];
      ghost var b: seq<string> := if ctme.Some? then [CtmeLine(ctme.value, fmt)] else [];
      ghost var c: seq<string> := if polimi then PolimiLines(cells) else [];
      ghost var t0 := text;
      if nps.Some? {
        var me := Nps(nps.value, fmt);
      }
      assert text == t0 + Unlines(a);
      ghost var t1 := text;
      if ctme.Some? {
        var me := Ctme(ctme.value, fmt);
      }
      assert text == t1 + Unlines(b);
      ghost var t2 := text;
      if polimi {
        var me := Polimi(cells);
      }
      assert text == t2 + Unlines(c);
      assert OptionLines(nps, ctme, polimi, cells, fmt) == a + b + c;
      BlockOfThree(t0, a, b, c, t1, t2, text);
    }

    /** `nps`: appends `nps <num>` and returns the same object. */
    method Nps(num: real, fmt: Formats) returns (self: Phys)
      requires Valid()
      modifies this
      ensures Valid() && self == this
      ensures text == old(text) + Unlines([NpsLine(num, fmt)])
      ensures comment == old(comment) && maxE == old(maxE) && minE == old(minE)
    {
      text := text + "nps " + fmt.e(num) + "\n";
      self := this;
    }

    /** `ctme`: appends `ctme <num>` and returns the same object. */
    method Ctme(num: real, fmt: Formats) returns (self: Phys)
      requires Valid()
      modifies this
      ensures Valid() && self == this
      ensures text == old(text) + Unlines([CtmeLine(num, fmt)])
      ensures comment == old(comment) && maxE == old(maxE) && minE == old(minE)
    {
      text := text + "ctme " + fmt.e(num) + "\n";
      self := this;
    }

    /** `no_fission`: appends `nonu` when no cells are given, and nothing when they are. */
    method NoFission(cells: Option<seq<CellRef>>) returns (self: Phys)
      requires Valid()
      modifies this
      ensures Valid() && self == this
      ensures text == old(text) + (if cells.None? then Unlines(["nonu"]) else "")
      ensures comment == old(comment) && maxE == old(maxE) && minE == old(minE)
    {
      if cells.None? {
        text := text + "nonu\n";
      }
      self := this;
    }

    /**
     * `polimi`: appends the `ipol` card, whose count is the length of the
     * list and whose numbers are those of its ints and cells, then
     * `files 21 DUMN1`; returns the same object.
     */
    method Polimi(cells: seq<CellRef>) returns (self: Phys)
      requires Valid()
      modifies this
      ensures Valid() && self == this
      ensures text == old(text) + Unlines(PolimiLines(cells))
      ensures comment == old(comment) && maxE == old(maxE) && minE == old(minE)
    {
      var line := IpolCard(cells);
      text := text + line;
      text := text + "\n";
      text := text + "files 21 DUMN1\n";
      UnlinesPair(line, "files 21 DUMN1");
      self := this;
    }
  }
}
