/**
 * The source encoder: one `par=...` primary line for a particle source,
 * followed by the distribution records it owns, numbered 1, 2, 3... in the
 * order they are allocated.
 */
module SourceEncoder {
  import opened Wrappers
  import opened Tokens
  import opened Distribution

  datatype Point = Point(x: real, y: real, z: real)

  /**
   * The `spectrum` argument: a list `[abscissas, weights]`, a float energy,
   * or anything else (None, an int, ...), which emits no energy.
   */
  datatype Spectrum = ListSpectrum(x: seq<real>, y: seq<real>) | FloatEnergy(e: real) | NoSpectrum

  /** The arguments of `source(...)`; the cell is reduced to its `cell_num`. */
  datatype SourceSpec = SourceSpec(
    particle: string,
    pos: Option<Point>,
    x: Option<real>, y: Option<real>, z: Option<real>,
    spectrum: Spectrum,
    shape: Option<string>,
    direction: Option<string>,
    id: Option<string>,
    radius: Option<real>,
    cell: Option<int>,
    show: bool,
    spectrumType: Option<string>)

  /** A constructed source: the fields `show`, `x`, `y`, `z`, `dist_num`, `dists`, `string` and `comment`. */
  datatype Source = Source(
    show: bool,
    x: Option<real>, y: Option<real>, z: Option<real>,
    distNum: int,
    dists: seq<Dist>,
    text: string,
    comment: string)

  /** The exceptions the constructor raises. */
  datatype SourceError =
    | UnknownParticle     // KeyError: the tag has no type code
    | NoColour            // KeyError: the tag has a type code but no colour ("e")
    | NoAxis              // AttributeError: a disk whose direction set no axis
    | MissingCoordinate   // TypeError: `%6.4f` of a coordinate that is None
    | MissingRadius       // TypeError: `%15.10e` of the radius None in the cell's radial distribution
    | DistFailed(DistError)

  const TYPE_CODES: map<string, int> := map["n" := 1, "p" := 2, "e" := 3, "fission" := 1]
  const COLOURED: set<string> := {"n", "p", "fission"}

  datatype Axis = Axis(a: int, b: int, c: int)

  predicate PointsDown(direction: Option<string>) {
    direction == Some("-z") || direction == Some("z-")
  }

  predicate PointsAlongX(direction: Option<string>) {
    direction == Some("+x") || direction == Some("x+")
  }

  function AxisOf(direction: Option<string>): Option<Axis> {
    if PointsDown(direction) then Some(Axis(0, 0, 1))
    else if PointsAlongX(direction) then Some(Axis(1, 0, 0))
    else None
  }

  function DirectionTokens(direction: Option<string>): seq<string> {
    if PointsDown(direction) then ["vec=0", "0", "-1", "dir=1"]
    else if PointsAlongX(direction) then ["vec=1", "0", "0", "dir=1"]
    else []
  }

  /** A disk with a radius gets a radial distribution and an `axs=` field. */
  predicate IsDisk(s: SourceSpec) {
    s.shape == Some("disk") && s.radius.Some?
  }

  /** Without a cell and without the disk shape, the position is written out. */
  predicate IsFixed(s: SourceSpec) {
    s.cell.None? && s.shape != Some("disk")
  }

  /** The position: `pos` when given, else the separate coordinates. */
  function Coords(s: SourceSpec): Option<Point> {
    if s.pos.Some? then s.pos
    else if s.x.Some? && s.y.Some? && s.z.Some? then Some(Point(s.x.value, s.y.value, s.z.value))
    else None
  }

  /** The exception the constructor raises, in the order its statements run; None when it completes. */
  function Failure(s: SourceSpec): Option<SourceError> {
    if s.particle !in TYPE_CODES then Some(UnknownParticle)
    else if s.particle !in COLOURED then Some(NoColour)
    else if IsDisk(s) && AxisOf(s.direction).None? then Some(NoAxis)
    else if (IsFixed(s) || s.cell.Some?) && Coords(s).None? then Some(MissingCoordinate)
    else if s.cell.Some? && s.radius.None? then Some(MissingRadius)
    else if s.spectrum.ListSpectrum? && s.spectrumType == Some("Maxwellian") then Some(DistFailed(UnboundShapeParameter))
    else None
  }

  /** A radial distribution over [0, radius] with the integer weights -21 1. */
  function Radial(radius: real): DistArgs {
    DistArgs([0.0, radius], [-21.0, 1.0], None, Some("d"))
  }

  const WATT_ARGS: DistArgs := DistArgs([], [], Some("Watt"), None)

  function DiskRequests(s: SourceSpec): seq<DistArgs> {
    if IsDisk(s) then [Radial(s.radius.value)] else []
  }

  function CellRequests(s: SourceSpec): seq<DistArgs> {
    if s.cell.Some? && s.radius.Some? then [Radial(s.radius.value)] else []
  }

  /** A list spectrum wins over the fission spectrum, which wins over a float energy. */
  function SpectrumRequests(s: SourceSpec): seq<DistArgs> {
    if s.spectrum.ListSpectrum? then [DistArgs(s.spectrum.x, s.spectrum.y, s.spectrumType, None)]
    else if s.particle == "fission" then [WATT_ARGS]
    else []
  }

  /** The distributions a source allocates, in allocation order. */
  function Requests(s: SourceSpec): seq<DistArgs> {
    DiskRequests(s) + CellRequests(s) + SpectrumRequests(s)
  }

  function PosTokens(p: Point, fmt: Formats): seq<string> {
    ["pos=" + fmt.fixed(p.x), fmt.fixed(p.y), fmt.fixed(p.z)]
  }

  function ParTokens(s: SourceSpec): seq<string>
    requires s.particle in TYPE_CODES
  {
    ["par=" + FmtInt(TYPE_CODES[s.particle])]
  }

  function DiskTokens(s: SourceSpec): seq<string>
    requires IsDisk(s) ==> AxisOf(s.direction).Some?
  {
    if IsDisk(s) then
      var ax := AxisOf(s.direction).value;
      ["axs=" + FmtInt(ax.a), FmtInt(ax.b), FmtInt(ax.c), "rad=d" + FmtInt(1)]
    else []
  }

  function PlacementTokens(s: SourceSpec, fmt: Formats): seq<string>
    requires (IsFixed(s) || s.cell.Some?) ==> Coords(s).Some?
  {
    if IsFixed(s) then PosTokens(Coords(s).value, fmt)
    else if s.cell.Some? then
      ["cel=" + FmtInt(s.cell.value)] + PosTokens(Coords(s).value, fmt) + ["rad=d" + FmtInt(1 + |DiskRequests(s)|)]
    else []
  }

  function ErgTokens(s: SourceSpec, fmt: Formats): seq<string>
  {
    if s.spectrum.ListSpectrum? || s.particle == "fission" then ["erg=d" + FmtInt(|Requests(s)|)]
    else if s.spectrum.FloatEnergy? then ["erg=" + fmt.sci(s.spectrum.e)]
    else []
  }

  /** The tokens of the primary line, in the order the constructor writes them. */
  function Primary(s: SourceSpec, fmt: Formats): seq<string>
    requires Failure(s).None?
  {
    ParTokens(s) + DirectionTokens(s.direction) + DiskTokens(s) + PlacementTokens(s, fmt) + ErgTokens(s, fmt)
  }

  /** Every request the source makes renders: only a Maxwellian one would not. */
  predicate Renderable(reqs: seq<DistArgs>) {
    forall k :: 0 <= k < |reqs| ==> reqs[k].spectrumType != Some("Maxwellian")
  }

  /** Renders the requests as distributions numbered 1, 2, 3... */
  function Numbered(reqs: seq<DistArgs>, fmt: Formats): (ds: seq<Dist>)
    requires Renderable(reqs)
    ensures |ds| == |reqs|
    ensures forall i :: 0 <= i < |reqs| ==> ds[i].distNum == i + 1
  {
    if reqs == [] then []
    else
      var n := |reqs|;
      assert Renderable(reqs[..n - 1]) by {
        assert forall k :: 0 <= k < n - 1 ==> reqs[..n - 1][k] == reqs[k];
      }
      Numbered(reqs[..n - 1], fmt) + [Dist(n, Render(reqs[n - 1], n, fmt).value)]
  }

  /** The i-th distribution is the i-th request rendered under the number i + 1. */
  lemma {:induction false} NumberedRenders(reqs: seq<DistArgs>, fmt: Formats, i: nat)
    requires Renderable(reqs) && i < |reqs|
    ensures Render(reqs[i], i + 1, fmt) == Ok(Numbered(reqs, fmt)[i].distString)
  {
    var n := |reqs|;
    var init := reqs[..n - 1];
    assert Renderable(init) by {
      assert forall k :: 0 <= k < n - 1 ==> init[k] == reqs[k];
    }
    var last := Dist(n, Render(reqs[n - 1], n, fmt).value);
    assert Numbered(reqs, fmt) == Numbered(init, fmt) + [last];
    if i < n - 1 {
      NumberedRenders(init, fmt, i);
      assert init[i] == reqs[i];
      assert Numbered(reqs, fmt)[i] == Numbered(init, fmt)[i];
    } else {
      assert reqs[n - 1].spectrumType != Some("Maxwellian");
      assert Numbered(reqs, fmt)[i] == last;
    }
  }

  /** The distribution texts one after the other. */
  function Concat(ds: seq<Dist>): string {
    if ds == [] then "" else Concat(ds[..|ds| - 1]) + ds[|ds| - 1].distString
  }

  lemma FailureFreeRenders(s: SourceSpec)
    requires Failure(s).None?
    ensures Renderable(Requests(s))
  {
  }

  /** The text of a source: the primary line, a line break, the records, less the final line break. */
  function SourceText(s: SourceSpec, fmt: Formats): string
    requires Failure(s).None?
  {
    FailureFreeRenders(s);
    Trim(Join(Primary(s, fmt), ' ') + "\n" + Records(s, fmt))
  }

  /** The records of a source one after the other, in allocation order. */
  function Records(s: SourceSpec, fmt: Formats): string
    requires Failure(s).None?
  {
    FailureFreeRenders(s);
    Concat(Numbered(Requests(s), fmt))
  }

  function IdText(id: Option<string>): string {
    if id.None? then "None" else id.value
  }

  function Comment(id: Option<string>): string {
    "c --- " + IdText(id)
  }

  lemma DirectionText(direction: Option<string>)
    ensures DirectionTokens(direction) != [] ==>
      Join(DirectionTokens(direction), ' ') + " " == if PointsDown(direction) then "vec=0 0 -1 dir=1 " else "vec=1 0 0 dir=1 "
  {
    if PointsDown(direction) {
      Join4("vec=0", "0", "-1", "dir=1", ' ');
    } else if PointsAlongX(direction) {
      Join4("vec=1", "0", "0", "dir=1", ' ');
    }
  }

  /** The constructor's working state: `self.string`, `self.dists` and `self.dist_num`. */
  datatype Builder = Builder(text: string, dists: seq<Dist>, distNum: int)

  /**
   * The state after writing `toks` and allocating `reqs`: each token written
   * with a blank after it, the distributions numbered 1, 2, 3..., and the
   * counter one past the last number.
   */
  predicate Holds(b: Builder, toks: seq<string>, reqs: seq<DistArgs>, fmt: Formats) {
    && |toks| > 0
    && b.text == Join(toks, ' ') + " "
    && Renderable(reqs)
    && b.dists == Numbered(reqs, fmt)
    && b.distNum == |reqs| + 1
  }

  lemma NumberedSnoc(reqs: seq<DistArgs>, a: DistArgs, fmt: Formats)
    requires Renderable(reqs) && a.spectrumType != Some("Maxwellian")
    ensures Renderable(reqs + [a])
    ensures Numbered(reqs + [a], fmt) == Numbered(reqs, fmt) + [Dist(|reqs| + 1, Render(a, |reqs| + 1, fmt).value)]
  {
    assert (reqs + [a])[..|reqs|] == reqs;
  }

  /** The direction step: `vec=... dir=1` for the two recognised directions, which also set the axis. */
  method WriteDirection(b: Builder, s: SourceSpec, ghost fmt: Formats) returns (b': Builder, axis: Option<Axis>)
    requires s.particle in TYPE_CODES
    requires Holds(b, ParTokens(s), [], fmt)
    ensures axis == AxisOf(s.direction)
    ensures Holds(b', ParTokens(s) + DirectionTokens(s.direction), [], fmt)
  {
    b', axis := b, None;
    DirectionText(s.direction);
    if s.direction == Some("-z") || s.direction == Some("z-") {
      EmitTokens(b.text, ParTokens(s), DirectionTokens(s.direction));
      b' := b'.(text := b'.text + "vec=0 0 -1 dir=1 ");
      axis := Some(Axis(0, 0, 1));
    } else if s.direction == Some("+x") || s.direction == Some("x+") {
      EmitTokens(b.text, ParTokens(s), DirectionTokens(s.direction));
      b' := b'.(text := b'.text + "vec=1 0 0 dir=1 ");
      axis := Some(Axis(1, 0, 0));
    } else {
      assert ParTokens(s) + DirectionTokens(s.direction) == ParTokens(s);
    }
  }

  /** The text written for a disk: the axis then the radial distribution's number. */
  lemma DiskPiece(ax: Axis, n: int)
    ensures "axs=" + FmtInt(ax.a) + " " + FmtInt(ax.b) + " " + FmtInt(ax.c) + " rad=d" + FmtInt(n) + " "
      == Join(["axs=" + FmtInt(ax.a), FmtInt(ax.b), FmtInt(ax.c), "rad=d" + FmtInt(n)], ' ') + " "
  {
    Join4("axs=" + FmtInt(ax.a), FmtInt(ax.b), FmtInt(ax.c), "rad=d" + FmtInt(n), ' ');
  }

  /** The disk step: a radial distribution and `axs=<axis> rad=d<n>`; a disk without an axis raises. */
  method WriteDisk(b: Builder, s: SourceSpec, axis: Option<Axis>, fmt: Formats) returns (r: Result<Builder, SourceError>)
    requires s.particle in TYPE_CODES && axis == AxisOf(s.direction)
    requires Holds(b, ParTokens(s) + DirectionTokens(s.direction), [], fmt)
    ensures r.Err? <==> IsDisk(s) && axis.None?
    ensures r.Err? ==> r.error == NoAxis
    ensures r.Ok? ==> Holds(r.value, ParTokens(s) + DirectionTokens(s.direction) + DiskTokens(s), DiskRequests(s), fmt)
  {
    var text, dists, distNum := b.text, b.dists, b.distNum;
    ghost var toks := ParTokens(s) + DirectionTokens(s.direction);
    if s.shape == Some("disk") && s.radius.Some? {
      var d := NewDist(Radial(s.radius.value), distNum, fmt);
      dists := dists + [d.value];
      if axis.None? {
        return Err(NoAxis);
      }
      var piece := "axs=" + FmtInt(axis.value.a) + " " + FmtInt(axis.value.b) + " " + FmtInt(axis.value.c)
        + " rad=d" + FmtInt(distNum) + " ";
      ghost var more := DiskTokens(s);
      assert piece == Join(more, ' ') + " " by {
        DiskPiece(axis.value, distNum);
      }
      EmitTokens(text, toks, more);
      text := text + piece;
      distNum := distNum + 1;
      NumberedSnoc([], Radial(s.radius.value), fmt);
      assert DiskRequests(s) == [] + [Radial(s.radius.value)];
    } else {
      assert toks + DiskTokens(s) == toks;
    }
    r := Ok(Builder(text, dists, distNum));
  }

  /** Appends to the line a piece that holds the tokens `more`, each followed by a blank. */
  method Write(b: Builder, ghost toks: seq<string>, ghost reqs: seq<DistArgs>, ghost more: seq<string>, piece: string, ghost fmt: Formats)
    returns (b': Builder)
    requires Holds(b, toks, reqs, fmt) && |more| > 0 && piece == Join(more, ' ') + " "
    ensures b' == b.(text := b.text + piece)
    ensures Holds(b', toks + more, reqs, fmt)
  {
    EmitTokens(b.text, toks, more);
    b' := b.(text := b.text + piece);
  }

  /**
   * Allocates the next distribution for `a`, writes `key` and its number
   * (`rad=d<n>`, `erg=d<n>`), then advances the counter.
   */
  method WriteRef(b: Builder, ghost toks: seq<string>, ghost reqs: seq<DistArgs>, a: DistArgs, key: string, fmt: Formats)
    returns (r: Result<Builder, DistError>)
    requires Holds(b, toks, reqs, fmt)
    ensures r.Err? <==> a.spectrumType == Some("Maxwellian")
    ensures r.Err? ==> r.error == UnboundShapeParameter
    ensures r.Ok? ==> Holds(r.value, toks + [key + FmtInt(|reqs| + 1)], reqs + [a], fmt)
  {
    var d := NewDist(a, b.distNum, fmt);
    if d.Err? {
      return Err(d.error);
    }
    var dists := b.dists + [d.value];
    var name := key + FmtInt(b.distNum);
    var text := b.text + name + " ";
    EmitToken(b.text, toks, name);
    NumberedSnoc(reqs, a, fmt);
    r := Ok(Builder(text, dists, b.distNum + 1));
  }

  /** Writes `pos=x y z` with `%6.4f`; the coordinates are those of the source. */
  method WritePos(b: Builder, s: SourceSpec, x: real, y: real, z: real, fmt: Formats,
                  ghost toks: seq<string>, ghost reqs: seq<DistArgs>)
    returns (b': Builder)
    requires Coords(s) == Some(Point(x, y, z))
    requires Holds(b, toks, reqs, fmt)
    ensures Holds(b', toks + PosTokens(Coords(s).value, fmt), reqs, fmt)
  {
    ghost var more := PosTokens(Point(x, y, z), fmt);
    var piece := "pos=" + fmt.fixed(x) + " " + fmt.fixed(y) + " " + fmt.fixed(z) + " ";
    assert piece == Join(more, ' ') + " " by {
      Join3(more[0], more[1], more[2], ' ');
    }
    b' := Write(b, toks, reqs, more, piece, fmt);
  }

  /**
   * The placement step: `pos=x y z` without a cell unless the shape is a
   * disk; with a cell, `cel=<n> pos=x y z rad=d<k>` and a radial distribution.
   */
  method WritePlacement(b: Builder, s: SourceSpec, x: Option<real>, y: Option<real>, z: Option<real>, fmt: Formats)
    returns (r: Result<Builder, SourceError>)
    requires s.particle in TYPE_CODES && (IsDisk(s) ==> AxisOf(s.direction).Some?)
    requires x == (if s.pos.Some? then Some(s.pos.value.x) else s.x)
    requires y == (if s.pos.Some? then Some(s.pos.value.y) else s.y)
    requires z == (if s.pos.Some? then Some(s.pos.value.z) else s.z)
    requires Holds(b, ParTokens(s) + DirectionTokens(s.direction) + DiskTokens(s), DiskRequests(s), fmt)
    ensures r.Err? <==> ((IsFixed(s) || s.cell.Some?) && Coords(s).None?) || (s.cell.Some? && s.radius.None?)
    ensures r.Err? ==> r.error == if Coords(s).None? then MissingCoordinate else MissingRadius
    ensures r.Ok? ==> Holds(r.value,
      ParTokens(s) + DirectionTokens(s.direction) + DiskTokens(s) + PlacementTokens(s, fmt),
      DiskRequests(s) + CellRequests(s), fmt)
  {
    ghost var toks := ParTokens(s) + DirectionTokens(s.direction) + DiskTokens(s);
    ghost var reqs := DiskRequests(s);
    var positioned := s.cell.None?;
    if positioned && s.shape != Some("disk") {
      if x.None? || y.None? || z.None? {
        return Err(MissingCoordinate);
      }
      var b' := WritePos(b, s, x.value, y.value, z.value, fmt, toks, reqs);
      assert PlacementTokens(s, fmt) == PosTokens(Coords(s).value, fmt) && reqs + CellRequests(s) == reqs;
      r := Ok(b');
    } else if s.cell.Some? {
      r := WriteCell(b, s, x, y, z, fmt, toks, reqs);
    } else {
      assert toks + PlacementTokens(s, fmt) == toks;
      assert reqs + CellRequests(s) == reqs;
      r := Ok(b);
    }
  }

  /**
   * The placement step inside a cell: `cel=<n> pos=x y z rad=d<k>` and a
   * radial distribution, after the tokens `toks` and the requests `reqs`
   * of the steps before it.
   */
  method WriteCell(b: Builder, s: SourceSpec, x: Option<real>, y: Option<real>, z: Option<real>, fmt: Formats,
                   ghost toks: seq<string>, ghost reqs: seq<DistArgs>)
    returns (r: Result<Builder, SourceError>)
    requires s.cell.Some? && !IsFixed(s)
    requires x == (if s.pos.Some? then Some(s.pos.value.x) else s.x)
    requires y == (if s.pos.Some? then Some(s.pos.value.y) else s.y)
    requires z == (if s.pos.Some? then Some(s.pos.value.z) else s.z)
    requires Holds(b, toks, reqs, fmt) && |reqs| == |DiskRequests(s)|
    ensures r.Err? <==> Coords(s).None? || s.radius.None?
    ensures r.Err? ==> r.error == if Coords(s).None? then MissingCoordinate else MissingRadius
    ensures r.Ok? ==> Holds(r.value, toks + PlacementTokens(s, fmt), reqs + CellRequests(s), fmt)
  {
    ghost var cel := "cel=" + FmtInt(s.cell.value);
    var b' := Write(b, toks, reqs, [cel], "cel=" + FmtInt(s.cell.value) + " ", fmt);
    if x.None? || y.None? || z.None? {
      return Err(MissingCoordinate);
    }
    b' := WritePos(b', s, x.value, y.value, z.value, fmt, toks + [cel], reqs);
    if s.radius.None? {
      return Err(MissingRadius);
    }
    var w := WriteRef(b', toks + [cel] + PosTokens(Coords(s).value, fmt), reqs, Radial(s.radius.value), "rad=d", fmt);
    assert toks + PlacementTokens(s, fmt) == toks + [cel] + PosTokens(Coords(s).value, fmt) + ["rad=d" + FmtInt(|reqs| + 1)]
        && reqs + CellRequests(s) == reqs + [Radial(s.radius.value)] by {
      CellTokens(s, fmt, |reqs| + 1);
      AppendAssoc(toks, [cel], PosTokens(Coords(s).value, fmt), ["rad=d" + FmtInt(|reqs| + 1)]);
    }
    r := Ok(w.value);
  }

  /** The placement tokens inside a cell, whose radial distribution gets the number `k`. */
  lemma CellTokens(s: SourceSpec, fmt: Formats, k: int)
    requires s.cell.Some? && !IsFixed(s) && Coords(s).Some? && s.radius.Some? && k == |DiskRequests(s)| + 1
    ensures PlacementTokens(s, fmt) == ["cel=" + FmtInt(s.cell.value)] + PosTokens(Coords(s).value, fmt) + ["rad=d" + FmtInt(k)]
    ensures CellRequests(s) == [Radial(s.radius.value)]
  {
  }

  /** A list or fission spectrum is the last request, and `erg=d<k>` names it. */
  lemma SpectrumReference(s: SourceSpec, fmt: Formats)
    requires s.spectrum.ListSpectrum? || s.particle == "fission"
    ensures var reqs := DiskRequests(s) + CellRequests(s);
      && Requests(s) == reqs + SpectrumRequests(s)
      && SpectrumRequests(s) == [if s.spectrum.ListSpectrum? then DistArgs(s.spectrum.x, s.spectrum.y, s.spectrumType, None) else WATT_ARGS]
      && ErgTokens(s, fmt) == ["erg=d" + FmtInt(|reqs| + 1)]
  {
  }

  /** Without a list or fission spectrum nothing more is requested. */
  lemma NoSpectrumReference(s: SourceSpec)
    requires !s.spectrum.ListSpectrum? && s.particle != "fission"
    ensures Requests(s) == DiskRequests(s) + CellRequests(s)
  {
    assert SpectrumRequests(s) == [];
  }

  /** The spectrum step: first match of a list spectrum, a fission source, a float energy. */
  method WriteSpectrum(b: Builder, s: SourceSpec, fmt: Formats) returns (r: Result<Builder, SourceError>)
    requires s.particle in TYPE_CODES && (IsDisk(s) ==> AxisOf(s.direction).Some?)
    requires (IsFixed(s) || s.cell.Some?) ==> Coords(s).Some?
    requires Holds(b,
      ParTokens(s) + DirectionTokens(s.direction) + DiskTokens(s) + PlacementTokens(s, fmt),
      DiskRequests(s) + CellRequests(s), fmt)
    ensures r.Err? <==> s.spectrum.ListSpectrum? && s.spectrumType == Some("Maxwellian")
    ensures r.Err? ==> r.error == DistFailed(UnboundShapeParameter)
    ensures r.Ok? ==> Holds(r.value,
      ParTokens(s) + DirectionTokens(s.direction) + DiskTokens(s) + PlacementTokens(s, fmt) + ErgTokens(s, fmt),
      Requests(s), fmt)
  {
    ghost var toks := ParTokens(s) + DirectionTokens(s.direction) + DiskTokens(s) + PlacementTokens(s, fmt);
    ghost var reqs := DiskRequests(s) + CellRequests(s);
    if s.spectrum.ListSpectrum? || s.particle == "fission" {
      r := WriteSpectrumRef(b, s, fmt, toks, reqs);
    } else {
      var b' := WriteEnergy(b, s, fmt, toks, reqs);
      r := Ok(b');
    }
  }

  /** A list spectrum, or else the fission spectrum: a distribution and `erg=d<k>`. */
  method WriteSpectrumRef(b: Builder, s: SourceSpec, fmt: Formats, ghost toks: seq<string>, ghost reqs: seq<DistArgs>)
    returns (r: Result<Builder, SourceError>)
    requires s.spectrum.ListSpectrum? || s.particle == "fission"
    requires Holds(b, toks, reqs, fmt) && reqs == DiskRequests(s) + CellRequests(s)
    ensures r.Err? <==> s.spectrum.ListSpectrum? && s.spectrumType == Some("Maxwellian")
    ensures r.Err? ==> r.error == DistFailed(UnboundShapeParameter)
    ensures r.Ok? ==> Holds(r.value, toks + ErgTokens(s, fmt), Requests(s), fmt)
  {
    SpectrumReference(s, fmt);
    if s.spectrum.ListSpectrum? {
      var a := DistArgs(s.spectrum.x, s.spectrum.y, s.spectrumType, None);
      var w := WriteRef(b, toks, reqs, a, "erg=d", fmt);
      if w.Err? {
        return Err(DistFailed(w.error));
      }
      r := Ok(w.value);
    } else {
      // The source passes `type='Watt'` here, a keyword `dist` does not
      // accept; the spectrum type it evidently means is used instead.
      var w := WriteRef(b, toks, reqs, WATT_ARGS, "erg=d", fmt);
      r := Ok(w.value);
    }
  }

  /** Neither a list nor a fission spectrum: `erg=<e>` for a float energy, nothing otherwise. */
  method WriteEnergy(b: Builder, s: SourceSpec, fmt: Formats, ghost toks: seq<string>, ghost reqs: seq<DistArgs>)
    returns (b': Builder)
    requires !s.spectrum.ListSpectrum? && s.particle != "fission"
    requires Holds(b, toks, reqs, fmt) && reqs == DiskRequests(s) + CellRequests(s)
    ensures Holds(b', toks + ErgTokens(s, fmt), Requests(s), fmt)
  {
    NoSpectrumReference(s);
    if s.spectrum.FloatEnergy? {
      b' := Write(b, toks, reqs, ErgTokens(s, fmt), "erg=" + fmt.sci(s.spectrum.e) + " ", fmt);
    } else {
      assert toks + ErgTokens(s, fmt) == toks;
      b' := b;
    }
  }

  /** The final assembly: trim the last blank, add a line break, append every record, trim the last character. */
  method Assemble(b: Builder) returns (text: string)
    requires |b.text| > 0
    ensures text == Trim(b.text[..|b.text| - 1] + "\n" + Concat(b.dists))
  {
    text := b.text[..|b.text| - 1];
    text := text + "\n";
    ghost var head := text;
    for i := 0 to |b.dists|
      invariant text == head + Concat(b.dists[..i])
    {
      assert b.dists[..i + 1][..i] == b.dists[..i];
      text := text + b.dists[i].distString;
    }
    assert b.dists[..|b.dists|] == b.dists;
    text := text[..|text| - 1];
  }

  /**
   * The fields after `par=`, in the order the constructor writes them:
   * direction, disk, placement, spectrum. Stops at the first exception.
   */
  method WriteFields(b: Builder, s: SourceSpec, x: Option<real>, y: Option<real>, z: Option<real>, fmt: Formats)
    returns (r: Result<Builder, SourceError>)
    requires s.particle in TYPE_CODES && s.particle in COLOURED
    requires x == (if s.pos.Some? then Some(s.pos.value.x) else s.x)
    requires y == (if s.pos.Some? then Some(s.pos.value.y) else s.y)
    requires z == (if s.pos.Some? then Some(s.pos.value.z) else s.z)
    requires Holds(b, ParTokens(s), [], fmt)
    ensures r.Err? <==> Failure(s).Some?
    ensures r.Err? ==> r.error == Failure(s).value
    ensures r.Ok? ==> Failure(s).None? && Holds(r.value, Primary(s, fmt), Requests(s), fmt)
  {
    var b', axis := WriteDirection(b, s, fmt);
    var step := WriteDisk(b', s, axis, fmt);
    if step.Err? {
      return Err(step.error);
    }
    step := WritePlacement(step.value, s, x, y, z, fmt);
    if step.Err? {
      return Err(step.error);
    }
    step := WriteSpectrum(step.value, s, fmt);
    if step.Err? {
      return Err(step.error);
    }
    r := step;
  }

  /** Assembling the state that holds the whole primary line and every request gives the text of the source. */
  lemma AssembledText(b: Builder, s: SourceSpec, fmt: Formats)
    requires Failure(s).None? && Holds(b, Primary(s, fmt), Requests(s), fmt)
    ensures |b.text| > 0 && Trim(b.text[..|b.text| - 1] + "\n" + Concat(b.dists)) == SourceText(s, fmt)
  {
    assert b.text[..|b.text| - 1] == Join(Primary(s, fmt), ' ');
  }

  /**
   * `source.__init__`: writes the primary line token by token, each token
   * followed by a blank, allocating distributions with a counter that starts
   * at 1; then trims the last blank, appends the records and trims the final
   * line break. Each exception of the constructor is an Err.
   */
  method NewSource(s: SourceSpec, fmt: Formats) returns (r: Result<Source, SourceError>)
    ensures r.Err? <==> Failure(s).Some?
    ensures r.Err? ==> r.error == Failure(s).value
    ensures r.Ok? ==> Failure(s).None? && r.value.dists == Numbered(Requests(s), fmt)
    ensures r.Ok? ==> |r.value.dists| == |Requests(s)| && r.value.distNum == |r.value.dists| + 1
    ensures r.Ok? ==> forall i :: 0 <= i < |r.value.dists| ==> r.value.dists[i].distNum == i + 1
    ensures r.Ok? ==> r.value.text == SourceText(s, fmt)
    ensures r.Ok? ==> r.value.comment == Comment(s.id) && r.value.show == s.show
    ensures r.Ok? ==> r.value.x == (if s.pos.Some? then Some(s.pos.value.x) else s.x)
    ensures r.Ok? ==> r.value.y == (if s.pos.Some? then Some(s.pos.value.y) else s.y)
    ensures r.Ok? ==> r.value.z == (if s.pos.Some? then Some(s.pos.value.z) else s.z)
  {
    var show := s.show;
    var x, y, z := s.x, s.y, s.z;
    if s.pos.Some? {
      x, y, z := Some(s.pos.value.x), Some(s.pos.value.y), Some(s.pos.value.z);
    }
    var b := Builder("", [], 1);
    var comment := "c --- " + IdText(s.id);
    if s.particle !in TYPE_CODES {
      return Err(UnknownParticle);
    }
    b := b.(text := b.text + "par=" + FmtInt(TYPE_CODES[s.particle]) + " ");
    if s.particle !in COLOURED {
      return Err(NoColour);
    }
    var step := WriteFields(b, s, x, y, z, fmt);
    if step.Err? {
      return Err(step.error);
    }
    b := step.value;
    var text := Assemble(b);
    AssembledText(b, s, fmt);
    r := Ok(Source(show, x, y, z, b.distNum, b.dists, text, comment));
  }

  // ---- Properties of the constructed source ----

  /** The tag picks the type code; "e" has a code but no colour, and an unknown tag has neither. */
  lemma ParticleCodes(s: SourceSpec)
    ensures Failure(s) == Some(UnknownParticle) <==> s.particle !in {"n", "p", "e", "fission"}
    ensures Failure(s) == Some(NoColour) <==> s.particle == "e"
    ensures Failure(s).None? ==> ParTokens(s) == ["par=" + (if s.particle == "p" then "2" else "1")]
  {
    assert FmtInt(1) == "1" && FmtInt(2) == "2";
  }

  /** A direction writes `vec` and `dir` exactly when it also sets the axis a disk needs. */
  lemma DirectionSetsAxis(direction: Option<string>)
    ensures DirectionTokens(direction) != [] <==> AxisOf(direction).Some?
    ensures AxisOf(direction).Some? ==> |DirectionTokens(direction)| == 4 && DirectionTokens(direction)[3] == "dir=1"
  {
  }

  /** How many distributions a source allocates: one per radial request, one for an energy spectrum. */
  lemma AllocationCount(s: SourceSpec)
    ensures |Requests(s)| ==
      (if IsDisk(s) then 1 else 0) + (if s.cell.Some? && s.radius.Some? then 1 else 0)
      + (if s.spectrum.ListSpectrum? || s.particle == "fission" then 1 else 0)
    ensures |Requests(s)| <= 3
  {
  }

  /** A disk inside a cell allocates two radial distributions over the same radius, and the cell refers to the second. */
  lemma DiskInCell(s: SourceSpec, fmt: Formats)
    requires Failure(s).None? && IsDisk(s) && s.cell.Some?
    ensures |Requests(s)| >= 2 && Requests(s)[0] == Requests(s)[1] == Radial(s.radius.value)
    ensures PlacementTokens(s, fmt) == ["cel=" + FmtInt(s.cell.value)] + PosTokens(Coords(s).value, fmt) + ["rad=d" + FmtInt(2)]
  {
  }

  /** The `rad=d<k>` of a disk names distribution 1, the radial one, numbered 1. */
  lemma DiskReference(s: SourceSpec, fmt: Formats)
    requires Failure(s).None? && IsDisk(s)
    ensures DiskTokens(s)[3] == "rad=d" + FmtInt(1) && ParseInt(FmtInt(1)) == Some(1)
    ensures Requests(s)[0] == Radial(s.radius.value)
      && Numbered(Requests(s), fmt)[0].distNum == 1
      && Render(Radial(s.radius.value), 1, fmt) == Ok(Numbered(Requests(s), fmt)[0].distString)
  {
    FailureFreeRenders(s);
    ParseFmtInt(1);
    NumberedRenders(Requests(s), fmt, 0);
  }

  /** The `rad=d<k>` of a cell names the radial distribution it allocated, and that distribution carries the number k. */
  lemma CellReference(s: SourceSpec, fmt: Formats)
    requires Failure(s).None? && s.cell.Some?
    ensures var k := |DiskRequests(s)| + 1; var pt := PlacementTokens(s, fmt);
      && pt[|pt| - 1] == "rad=d" + FmtInt(k) && ParseInt(FmtInt(k)) == Some(k)
      && k <= |Requests(s)| && Requests(s)[k - 1] == Radial(s.radius.value)
    ensures var k := |DiskRequests(s)| + 1;
      && Numbered(Requests(s), fmt)[k - 1].distNum == k
      && Render(Radial(s.radius.value), k, fmt) == Ok(Numbered(Requests(s), fmt)[k - 1].distString)
  {
    var k := |DiskRequests(s)| + 1;
    FailureFreeRenders(s);
    ParseFmtInt(k);
    assert Requests(s)[k - 1] == CellRequests(s)[0];
    NumberedRenders(Requests(s), fmt, k - 1);
  }

  /** The `erg=d<k>` of a list or fission spectrum names the last distribution, the spectrum's own. */
  lemma EnergyReference(s: SourceSpec, fmt: Formats)
    requires Failure(s).None? && (s.spectrum.ListSpectrum? || s.particle == "fission")
    ensures var k := |Requests(s)|;
      && k >= 1 && ErgTokens(s, fmt) == ["erg=d" + FmtInt(k)] && ParseInt(FmtInt(k)) == Some(k)
      && Requests(s)[k - 1] == SpectrumRequests(s)[0]
    ensures var k := |Requests(s)|;
      && Numbered(Requests(s), fmt)[k - 1].distNum == k
      && Render(SpectrumRequests(s)[0], k, fmt) == Ok(Numbered(Requests(s), fmt)[k - 1].distString)
  {
    var k := |Requests(s)|;
    FailureFreeRenders(s);
    ParseFmtInt(k);
    NumberedRenders(Requests(s), fmt, k - 1);
  }

  /** A fission source without a list spectrum gets the Watt spectrum as its last record, `sp<k> -3 a b`. */
  lemma FissionGetsWatt(s: SourceSpec, fmt: Formats)
    requires Failure(s).None? && s.particle == "fission" && !s.spectrum.ListSpectrum?
    requires fmt.Tokenish()
    ensures var k := |Requests(s)|;
      && k >= 1 && Requests(s)[k - 1] == WATT_ARGS && ErgTokens(s, fmt) == ["erg=d" + FmtInt(k)]
      && Split(Numbered(Requests(s), fmt)[k - 1].distString, '\n') == [Join(WattTokens(k, fmt), ' '), ""]
      && Split(Join(WattTokens(k, fmt), ' '), ' ') == ["sp" + FmtInt(k), "-3", fmt.e(WATT_A), fmt.e(WATT_B)]
  {
    var k := |Requests(s)|;
    EnergyReference(s, fmt);
    assert SpectrumRequests(s)[0] == WATT_ARGS;
    WattReadBack(WATT_ARGS, k, fmt);
  }

  lemma DirectionTokensAreTokens(direction: Option<string>)
    ensures AllTokens(DirectionTokens(direction))
  {
    if PointsDown(direction) {
      assert IsToken("vec=0") && IsToken("0") && IsToken("-1") && IsToken("dir=1");
    } else if PointsAlongX(direction) {
      assert IsToken("vec=1") && IsToken("0") && IsToken("dir=1");
    }
  }

  lemma DiskTokensAreTokens(s: SourceSpec)
    requires IsDisk(s) ==> AxisOf(s.direction).Some?
    ensures AllTokens(DiskTokens(s))
  {
    if IsDisk(s) {
      var ax := AxisOf(s.direction).value;
      Glued("axs=", FmtInt(ax.a));
      Glued("rad=d", FmtInt(1));
    }
  }

  lemma PlacementTokensAreTokens(s: SourceSpec, fmt: Formats)
    requires (IsFixed(s) || s.cell.Some?) ==> Coords(s).Some?
    requires fmt.Tokenish()
    ensures AllTokens(PlacementTokens(s, fmt))
  {
    if IsFixed(s) || s.cell.Some? {
      var p := Coords(s).value;
      Rendered(fmt, p.x);
      Rendered(fmt, p.y);
      Rendered(fmt, p.z);
      Glued("pos=", fmt.fixed(p.x));
      if s.cell.Some? {
        Glued("cel=", FmtInt(s.cell.value));
        Glued("rad=d", FmtInt(1 + |DiskRequests(s)|));
      }
    }
  }

  lemma ErgTokensAreTokens(s: SourceSpec, fmt: Formats)
    requires fmt.Tokenish()
    ensures AllTokens(ErgTokens(s, fmt))
  {
    if s.spectrum.ListSpectrum? || s.particle == "fission" {
      Glued("erg=d", FmtInt(|Requests(s)|));
    } else if s.spectrum.FloatEnergy? {
      Rendered(fmt, s.spectrum.e);
      Glued("erg=", fmt.sci(s.spectrum.e));
    }
  }

  /** Every token of the primary line is a token: no blank, no line break, not empty. */
  lemma PrimaryTokens(s: SourceSpec, fmt: Formats)
    requires Failure(s).None? && fmt.Tokenish()
    ensures AllTokens(Primary(s, fmt))
  {
    var par, dir, disk := ParTokens(s), DirectionTokens(s.direction), DiskTokens(s);
    var place, erg := PlacementTokens(s, fmt), ErgTokens(s, fmt);
    assert AllTokens(par) by {
      Glued("par=", FmtInt(TYPE_CODES[s.particle]));
    }
    DirectionTokensAreTokens(s.direction);
    DiskTokensAreTokens(s);
    PlacementTokensAreTokens(s, fmt);
    ErgTokensAreTokens(s, fmt);
    assert AllTokens(par + dir + disk + place + erg) by {
      AllTokensAppend(par, dir);
      AllTokensAppend(par + dir, disk);
      AllTokensAppend(par + dir + disk, place);
      AllTokensAppend(par + dir + disk + place, erg);
    }
  }

  /** The records of a source end with a line break when there is at least one. */
  lemma ConcatEnds(ds: seq<Dist>)
    requires |ds| > 0
    requires var t := ds[|ds| - 1].distString; |t| > 0 && t[|t| - 1] == '\n'
    ensures var c := Concat(ds); |c| > 0 && c[|c| - 1] == '\n'
  {
  }

  /** The records end with a line break when there is at least one. */
  lemma RecordsEnd(s: SourceSpec, fmt: Formats)
    requires Failure(s).None? && Requests(s) != []
    ensures var c := Records(s, fmt); |c| > 0 && c[|c| - 1] == '\n'
  {
    FailureFreeRenders(s);
    var reqs := Requests(s);
    NumberedRenders(reqs, fmt, |reqs| - 1);
    RecordEnds(reqs[|reqs| - 1], |reqs|, fmt);
    ConcatEnds(Numbered(reqs, fmt));
  }

  /**
   * The layout of the text: without distributions it is the primary line
   * alone; with them, the primary line, a line break and the records, of
   * which only the final line break was trimmed.
   */
  lemma SourceLayout(s: SourceSpec, fmt: Formats)
    requires Failure(s).None?
    ensures Requests(s) == [] ==> SourceText(s, fmt) == Join(Primary(s, fmt), ' ')
    ensures Requests(s) != [] ==> SourceText(s, fmt) + "\n" == Join(Primary(s, fmt), ' ') + "\n" + Records(s, fmt)
  {
    var line, c := Join(Primary(s, fmt), ' '), Records(s, fmt);
    if Requests(s) == [] {
      assert c == "";
      assert line + "\n" + c == line + ['\n'];
    } else {
      RecordsEnd(s, fmt);
      TrimEnd(line + "\n" + c, '\n');
    }
  }

  /** The last request is the spectrum's when there is one, else a radial one, without a spectrum type. */
  lemma LastRequestType(s: SourceSpec)
    requires Requests(s) != []
    ensures Requests(s)[|Requests(s)| - 1].spectrumType ==
      if s.spectrum.ListSpectrum? then s.spectrumType else if s.particle == "fission" then Some("Watt") else None
  {
  }

  /** The last record is a bare line break: a list spectrum whose type is neither one character long nor Watt. */
  predicate BareLast(s: SourceSpec) {
    s.spectrum.ListSpectrum? && !IsTabulated(s.spectrumType) && s.spectrumType != Some("Watt")
  }

  /**
   * The shape of the records' end: when `bare`, the last record is a bare
   * line break that follows the line break ending the one before it;
   * otherwise it has a last line of its own before its final line break.
   */
  predicate RecordsEndShape(ds: seq<Dist>, bare: bool) {
    && |ds| > 0
    && (bare ==> ds[|ds| - 1].distString == "\n")
    && (bare && |ds| > 1 ==> var p := ds[|ds| - 2].distString; |p| > 0 && p[|p| - 1] == '\n')
    && (!bare ==> var d := ds[|ds| - 1].distString; |d| >= 2 && d[|d| - 2] != '\n')
  }

  /** `t` is not empty and ends with a line break exactly when `bare`. */
  predicate EndsWithBreakIff(t: string, bare: bool) {
    |t| > 0 && (t[|t| - 1] == '\n' <==> bare)
  }

  /** The records of a source end in the shape that BareLast selects. */
  lemma LastRecord(s: SourceSpec, fmt: Formats)
    requires Failure(s).None? && Requests(s) != [] && fmt.Tokenish()
    ensures Renderable(Requests(s))
    ensures RecordsEndShape(Numbered(Requests(s), fmt), BareLast(s))
  {
    FailureFreeRenders(s);
    var reqs := Requests(s);
    assert BareLast(s) <==> BareType(reqs[|reqs| - 1].spectrumType) by {
      LastRequestType(s);
    }
    NumberedEnd(reqs, fmt, BareLast(s));
  }

  /** A spectrum type whose record is a bare line break. */
  predicate BareType(spectrumType: Option<string>) {
    !IsTabulated(spectrumType) && spectrumType != Some("Watt")
  }

  /** Numbered records end bare exactly when the last request has a bare type. */
  lemma NumberedEnd(reqs: seq<DistArgs>, fmt: Formats, bare: bool)
    requires Renderable(reqs) && |reqs| > 0 && fmt.Tokenish()
    requires bare <==> BareType(reqs[|reqs| - 1].spectrumType)
    ensures RecordsEndShape(Numbered(reqs, fmt), bare)
  {
    var k := |reqs|;
    var ds := Numbered(reqs, fmt);
    var a, d := reqs[k - 1], ds[k - 1].distString;
    assert Render(a, k, fmt) == Ok(d) by {
      NumberedRenders(reqs, fmt, k - 1);
    }
    LastLine(a, k, fmt, d);
    if k > 1 {
      EarlierRecordEnds(reqs, fmt);
    }
  }

  /**
   * The text ends with a line break exactly when its last record is a bare
   * line break. Otherwise the final trim leaves no line break at the end.
   */
  lemma TrailingBreak(s: SourceSpec, fmt: Formats)
    requires Failure(s).None? && fmt.Tokenish()
    ensures var t := SourceText(s, fmt); |t| > 0 && (t[|t| - 1] == '\n' <==> BareLast(s))
  {
    var line := Join(Primary(s, fmt), ' ');
    if Requests(s) != [] {
      TrailingBreakWithRecords(s, fmt, line);
      return;
    }
    assert |line| > 0 && '\n' !in line by {
      PrimaryTokens(s, fmt);
      TokensReadBack(Primary(s, fmt));
    }
    SourceLayout(s, fmt);
    assert line[|line| - 1] in line;
  }

  lemma TrailingBreakWithRecords(s: SourceSpec, fmt: Formats, line: string)
    requires Failure(s).None? && Requests(s) != [] && fmt.Tokenish() && line == Join(Primary(s, fmt), ' ')
    ensures EndsWithBreakIff(SourceText(s, fmt), BareLast(s))
  {
    FailureFreeRenders(s);
    LastRecord(s, fmt);
    assert SourceText(s, fmt) + "\n" == line + "\n" + Concat(Numbered(Requests(s), fmt)) by {
      SourceLayout(s, fmt);
    }
    ConcatTrailing(SourceText(s, fmt), line, Numbered(Requests(s), fmt), BareLast(s));
  }

  /** The record before the last one ends with a line break. */
  lemma EarlierRecordEnds(reqs: seq<DistArgs>, fmt: Formats)
    requires Renderable(reqs) && |reqs| > 1
    ensures var ds := Numbered(reqs, fmt); var p := ds[|ds| - 2].distString; |p| > 0 && p[|p| - 1] == '\n'
  {
    var k := |reqs|;
    NumberedRenders(reqs, fmt, k - 2);
    RecordEnds(reqs[k - 2], k - 1, fmt);
  }

  /**
   * Records after a line: the text they give, less its final character,
   * ends with a line break exactly when the last record is a bare line break.
   */
  lemma ConcatTrailing(t: string, line: string, ds: seq<Dist>, bare: bool)
    requires t + "\n" == line + "\n" + Concat(ds) && RecordsEndShape(ds, bare)
    ensures EndsWithBreakIff(t, bare)
  {
    var init := ds[..|ds| - 1];
    if bare && |ds| > 1 {
      assert init[|init| - 1] == ds[|ds| - 2];
      ConcatEnds(init);
    }
    EndsWithBreak(t, line, Concat(init), ds[|ds| - 1].distString, bare);
  }

  /** The first line of the text reads back, split at blanks, as the primary tokens. */
  lemma PrimaryLineReadBack(s: SourceSpec, fmt: Formats)
    requires Failure(s).None? && fmt.Tokenish()
    ensures var first := Split(SourceText(s, fmt), '\n')[0];
      && first == Join(Primary(s, fmt), ' ') && Split(first, ' ') == Primary(s, fmt)
      && |first| > 0 && first[|first| - 1] != ' '
  {
    var p, c := Primary(s, fmt), Records(s, fmt);
    assert AllTokens(p) && |p| > 0 by {
      PrimaryTokens(s, fmt);
    }
    TokensReadBack(p);
    assert SourceText(s, fmt) == Trim(Join(p, ' ') + ['\n'] + c);
    TrimmedFirstLine(Join(p, ' '), c, '\n');
  }

  // ---- The fission spectrum as written ----

  /** What `source.__init__` raises as written, where line 74 passes `dist` a keyword it does not accept. */
  datatype WrittenFailure = Raised(error: SourceError) | UnexpectedKeyword

  /** The failure of the constructor as written: every fission source without a list spectrum raises at the Watt call. */
  function FailureAsWritten(s: SourceSpec): Option<WrittenFailure>
  {
    if Failure(s).Some? then Some(Raised(Failure(s).value))
    else if s.particle == "fission" && !s.spectrum.ListSpectrum? then Some(UnexpectedKeyword)
    else None
  }

  /** As written, no fission source without a list spectrum is ever constructed, though the intended model constructs each one that passes the earlier checks. */
  lemma FissionRaisesAsWritten(s: SourceSpec)
    requires s.particle == "fission" && !s.spectrum.ListSpectrum?
    ensures FailureAsWritten(s).Some?
    ensures Failure(s).None? ==> FailureAsWritten(s) == Some(UnexpectedKeyword) && SpectrumRequests(s) == [WATT_ARGS]
  {
  }

  /** A fission point source at the origin with no spectrum: the written constructor raises, the intended one allocates the Watt record d1. */
  lemma FissionPointSource(fmt: Formats)
    ensures var s := SourceSpec("fission", Some(Point(0.0, 0.0, 0.0)), None, None, None, NoSpectrum,
                                None, None, None, None, None, true, Some("C"));
      && FailureAsWritten(s) == Some(UnexpectedKeyword)
      && Failure(s).None? && Requests(s) == [WATT_ARGS]
      && Primary(s, fmt) == ["par=1", "pos=" + fmt.fixed(0.0), fmt.fixed(0.0), fmt.fixed(0.0), "erg=d1"]
  {
    var s := SourceSpec("fission", Some(Point(0.0, 0.0, 0.0)), None, None, None, NoSpectrum,
                        None, None, None, None, None, true, Some("C"));
    assert FmtInt(1) == "1";
    assert Requests(s) == [WATT_ARGS];
    assert "erg=d" + FmtInt(1) == "erg=d1" && "par=" + FmtInt(1) == "par=1";
    assert PlacementTokens(s, fmt) == PosTokens(Point(0.0, 0.0, 0.0), fmt);
  }
}
