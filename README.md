# MCNP deck encoders, modelled in Dafny

This project models two text encoders that build parts of an MCNP input deck.

- **The source encoder** (`source.py`). `source.__init__` turns a particle tag, a placement, a direction and a spectrum into a source definition. It writes a primary line `par=<code> [vec=… dir=1] [axs=… rad=d<n>] [pos=x y z | cel=<c> pos=x y z rad=d<n>] [erg=…]`, followed by the distribution records the source owns. Distributions are numbered 1, 2, 3… by a counter that is bumped once per allocation. `dist.__init__` renders one record. A tabulated record is an `si<n> [tag] x…` line and an `sp<n> y…` line. A Watt record is the single canned line `sp<n> -3 a b`.
- **The physics encoder** (`phys.py`). `phys` writes a comment naming the particles and an append-only block of deck lines:
  - a `mode` line;
  - the photon and neutron `phys:`/`cut:` cards;
  - the `nps`, `ctme`, `nonu` and `ipol … / files 21 DUMN1` cards.

  These come from fluent mutators that return the same object. `nps` and `ctme` append one line, `polimi` two, and `no_fission` one line without cells and nothing with them.

The model is split into these files:

- `wrappers.dfy`: the `Option` and `Result` datatypes.
- `tokens.dfy`: the text shapes both encoders share.
  - A line is a sequence of tokens joined by single blanks.
  - A block is a sequence of lines joined by line breaks.
  - `Split` inverts `Join` on token sequences.
  - `%d` is concrete (`FmtInt`), with a `ParseInt` round trip.
  - The float conversions `%e`, `%15.10e` and `%6.4f` are a `Formats` parameter of arbitrary functions. The only thing assumed about them (`Tokenish`) is that each result is a non-empty token without blanks.
- `distribution.dfy`: `dist.__init__`. The method `NewDist` uses the source's loops and is proved against the specification function `Render`.
- `source.dfy`: `source.__init__`.
  - The method `NewSource` threads the constructor's working state (`string`, `dists`, `dist_num`) through one method per step: direction, disk, placement, spectrum, then assembly.
  - Each step is proved against the token and request lists that the specification functions `Primary` and `Requests` give.
  - Every exception the intended constructor raises is an `Err` value. `Failure` states which exception is raised, in statement order. The TypeError that source.py:74 raises as written is not an `Err` of `NewSource`; `FailureAsWritten` models it and the Findings table records it.
- `physics.dfy`: `phys` is a class `Phys`.
  - Its fields are `comment`, `text`, `maxE` and `minE`.
  - The mutators `Nps`, `Ctme`, `NoFission` and `Polimi` modify the object and return it.
  - Each mutator's contract states the exact suffix it appends. All of them keep the invariant that the block ends with a line break.

## Model

| member | source | states |
|---|---|---|
| Distribution.NewDist | source.py:85-112 | The record equals `Render`: tabulated, Watt or bare line break by spectrum type. Raises exactly for the Maxwellian type. |
| Distribution.WriteSi | source.py:89-97 | The `si` loop writes `si<n>`, the tag if one is given, then one `%15.10e` token per abscissa, joined by single blanks with the trailing blank trimmed. |
| Distribution.WriteSp | source.py:98-104 | The `sp` loop writes `sp<n>` then one token per ordinate: `%15.10e` without a format, `%d` for format `d`, none for any other format. Joined, trailing blank trimmed. |
| Distribution.SiLayout | source.py:90-95 | The `si` tokens are the number, the tag exactly when given, then exactly one `%15.10e` token per abscissa, in order. |
| Distribution.SpLayout | source.py:98-103 | The `sp` tokens are the number, then one token per ordinate in the requested format, or none for an unknown format. |
| Distribution.TabulatedReadBack | source.py:89-104 | For a tag without blanks, a tabulated record is exactly two newline-terminated lines. Neither ends in a blank. Split at blanks they give back the `si` and `sp` tokens. |
| Distribution.IntOrdinatesReadBack | source.py:102-103 | `%d` ordinates read back as the ordinates truncated toward zero. |
| Distribution.WattReadBack | source.py:107-112 | A Watt record is one line plus its line break, reading back as `sp<n>`, `-3`, `%e` of 0.988 and `%e` of 2.249. |
| Distribution.WattIgnoresData | source.py:107-111 | A Watt record ignores the abscissas and ordinates: two Watt requests with one number render identically. |
| Distribution.RenderShapes | source.py:89-112 | Rendering fails exactly for Maxwellian. Tabulated types give two lines, others one line. A type that is neither tabulated nor Watt gives a bare line break. |
| Distribution.RecordEnds | source.py:112 | Every record ends with a line break. |
| Distribution.LastLine | source.py:89-112 | The last line of a tabulated or Watt record is non-empty. Any other record that renders is exactly a line break. |
| SourceEncoder.NewSource | source.py:6-83 | Fails exactly when `Failure` says, with that error. The records are the requests numbered 1, 2, 3…, `dist_num` is one past the last, and the text is `SourceText`. The comment, `show` and coordinates are as the constructor sets them. |
| SourceEncoder.WriteFields | source.py:32-78 | Direction, disk, placement and spectrum in order. Errs exactly on the first exception. Otherwise the line holds exactly the `Primary` tokens and the records are `Requests`. |
| SourceEncoder.WriteDirection | source.py:32-37 | `-z`/`z-` writes exactly `vec=0 0 -1 dir=1` and `+x`/`x+` exactly `vec=1 0 0 dir=1`. Each sets the matching axis. Any other direction writes nothing and sets none. |
| SourceEncoder.WriteDisk | source.py:38-50 | A disk with a radius allocates a radial record and writes `axs=<axis> rad=d<n>`. Without an axis it raises, exactly then. Otherwise nothing is written. |
| SourceEncoder.WriteRef | source.py:69-72 | An allocation appends one record with the current number, writes `key<n>` and advances the counter. It fails exactly for a Maxwellian request. |
| SourceEncoder.WritePlacement | source.py:52-63 | Without a cell and not a disk, it writes `pos=x y z`. With a cell, `cel pos rad`. Otherwise nothing. Errs exactly for a missing coordinate or a missing cell radius. |
| SourceEncoder.WritePos | source.py:53-60 | Appends exactly `pos=x y z`, each coordinate in `%6.4f`, where the point is `pos` when given and else `x`, `y`, `z`. The records and the counter stay unchanged. |
| SourceEncoder.WriteCell | source.py:58-63 | Writes `cel=<c> pos=x y z rad=d<k>` and allocates the radial record `k`. Errs exactly for a missing coordinate, else a missing radius. |
| SourceEncoder.WriteSpectrum | source.py:68-78 | First match wins: list, else fission, else float, else nothing. Errs exactly for a Maxwellian list. |
| SourceEncoder.WriteSpectrumRef | source.py:68-76 | A list spectrum, else the fission spectrum, allocates the last record and writes `erg=d<k>`. |
| SourceEncoder.WriteEnergy | source.py:77-78 | A float writes `erg=<%15.10e>`. Anything else writes nothing. Neither allocates. |
| SourceEncoder.Assemble | source.py:79-83 | The text is the line less its last blank, a line break, every record in order, then the last character trimmed. |
| SourceEncoder.ParticleCodes | source.py:28-31 | An unknown tag fails on the type lookup and `e` on the colour lookup, exactly. Otherwise `par=` is 2 for `p` and 1 for `n`/`fission`. |
| SourceEncoder.DirectionSetsAxis | source.py:32-37 | A direction writes tokens exactly when it sets an axis. Those tokens are four, ending with `dir=1`. |
| SourceEncoder.AllocationCount | source.py:38-76 | The number of records is one per disk radius, one per cell radius and one per list or fission spectrum, so at most 3. |
| SourceEncoder.DiskInCell | source.py:38-63 | A disk in a cell allocates two identical radial records, and the cell refers to the second (`rad=d2`). |
| SourceEncoder.DiskReference | source.py:39-45 | The disk's `rad=d1` names record 1, which is its radial distribution rendered under number 1. |
| SourceEncoder.CellReference | source.py:58-63 | The cell's `rad=d<k>` is the placement's last token and names record `k`, which is its radial distribution under number `k`. |
| SourceEncoder.EnergyReference | source.py:68-76 | `erg=d<k>` names the last record `k`, which is the spectrum's own distribution rendered under number `k`. |
| SourceEncoder.FissionGetsWatt | source.py:73-76 | A fission source without a list spectrum has the Watt record `sp<k> -3 a b` last, and `erg=d<k>` names it. |
| SourceEncoder.NumberedRenders | source.py:24-25 | The i-th record is the i-th request rendered under the number i+1. |
| SourceEncoder.SourceLayout | source.py:79-83 | Without records the text is the primary line alone. With records it is the line, a line break, then the records, with only the final line break trimmed. |
| SourceEncoder.PrimaryLineReadBack | source.py:79-80 | The first line is the primary line. It ends in no blank, and split at blanks it gives back the primary tokens. |
| SourceEncoder.TrailingBreak | source.py:79-83 | The text ends with a line break exactly when the last record is a bare line break, that is a list spectrum whose type is neither one character long nor Watt. |
| SourceEncoder.FissionRaisesAsWritten | source.py:73-74 | As written, every fission source without a list spectrum raises. Where the intended model succeeds, it requests the Watt distribution instead. |
| SourceEncoder.FissionPointSource | source.py:73-76 | The fission point source at the origin with no spectrum raises as written. As intended it is `par=1 pos=… erg=d1` with the single Watt request. |
| Physics.Phys.constructor | phys.py:15-43 | Missing `maxE`/`minE` default to 20.0 and 1e-8 and are stored. The comment is the particles after `c --- default physics for`. The block is `mode`, the particle cards, then nps, ctme, polimi, each only when requested. The block ends with a line break. |
| Physics.Phys.WriteOptions | phys.py:38-43 | The optional cards are appended in the fixed order nps, ctme, polimi. Nothing else changes. |
| Physics.Phys.Nps | phys.py:45-53 | Appends exactly `nps <%e>` and a line break, keeps the old block as prefix and returns the same object. |
| Physics.Phys.Ctme | phys.py:55-64 | Appends exactly `ctme <%e>` and a line break, keeps the old block as prefix and returns the same object. |
| Physics.Phys.NoFission | phys.py:66-74 | Appends exactly `nonu` and a line break without cells. With cells it leaves the block unchanged. Returns the same object. |
| Physics.Phys.Polimi | phys.py:76-91 | Appends the `ipol` card and `files 21 DUMN1`, each with a line break, and returns the same object. |
| Physics.ListParticles | phys.py:27-31 | The loop gives the comment `c --- default physics for p1 p2 …` and the line `mode p1 p2 …`, each without a trailing blank. |
| Physics.ParticleCards | phys.py:32-37 | Writes the photon cards when `p` is present, then the neutron cards when `n` is present. |
| Physics.IpolCard | phys.py:82-88 | Writes `ipol 0 0 0 0 2J <len>`, then each int and each cell number, joined by single blanks with no trailing blank. |
| Physics.CommentMatchesMode | phys.py:19-31 | Split at blanks, the comment and the `mode` line list the same particles in the same order. |
| Physics.CardCount | phys.py:32-37 | There are two cards per `p` and two per `n`. Other tags produce none, and only the presence of `p` and `n` matters. |
| Physics.PhotonCardsFirst | phys.py:32-37 | With both particles present, the photon cards are lines 2-3 and the neutron cards lines 4-5. Any reordering of the particles gives the same block after the `mode` line. |
| Physics.IpolReadBack | phys.py:82-88 | The card reads back as the fixed words, then the list length, then the written numbers. All elements are written exactly when none is skipped. |
| Physics.CountWritten | phys.py:83-87 | Every element is written exactly when none is neither an int nor a cell. |
| Physics.TwoInts | phys.py:82-88 | `polimi([10, 20])` writes `ipol 0 0 0 0 2J 2 10 20`. |
| Physics.IntAndOther | phys.py:82-88 | A skipped element still counts: `[10, other]` writes `ipol 0 0 0 0 2J 2 10`. |
| Physics.InitReadBack | phys.py:15-43 | The constructed block splits at line breaks back into its lines, plus an empty remainder. |
| Physics.AppendedReadBack | phys.py:45-91 | A block followed by the lines the mutators append still splits back into all its lines, in order. |

## Left out

- Visualisation: `blender_cmd` and `blender_cmd_args`, the colours (beyond the colour lookup that fails for `e`), the `pyb` and `colour` imports, and the write into the cell's argument dictionary. These are calls into a renderer that is not part of this model.
- The decimal digits of `%e`, `%15.10e` and `%6.4f`. They are floating-point formatting, modelled as arbitrary functions that yield one token each.
- The cell object is reduced to its `cell_num`. In `polimi`, an element is an int, a cell, or any other value.
- `phys`'s `sources` parameter, which the source never uses.
- `particles=None` in `phys`, which raises when iterated. The model takes a sequence.
- A `bool` passing `isinstance(cell, int)` in `polimi` is not modelled.
- Python's `is` comparisons on strings (`spectrum_type is "Maxwellian"`, `is 'cell'`) are modelled as equality.
- `nps` and `ctme` take their number as a real, formatted with `%e`.
- Infinities and NaN. Python formats them as `inf`/`nan` padded with blanks to the field width (`'%15.10e' % float('inf')` is twelve blanks then `inf`), so a non-finite coordinate, radius, energy or ordinate would give a token with leading blanks and break the token and read-back properties. Numbers are modelled as `real`, which has neither.
- The keyword defaults of `source(...)` (source.py:6-8): `particle='n'`, `show=True` and `spectrum_type='C'`. `SourceSpec` has no defaults, so a caller states every field. The list spectrum's `C` tag is then `spectrumType == Some("C")`.
- A malformed spectrum list (fewer than two elements, or non-numeric entries) and a malformed `pos` (fewer than three elements) are not modelled. A list spectrum is a pair of number sequences, and `pos` is a point.
- `dist` called without `x` or `y`. The calls at source.py:39, 61 and 69 pass both. The call at source.py:74 passes neither, and neither would the intended `dist(spectrum_type='Watt', dist_num=...)`. That works only because the Watt branch never iterates them, so the model gives a Watt request empty abscissas and ordinates, and `WattIgnoresData` shows that their content does not matter.
- The Maxwellian branch of `dist` reads a local name that is never assigned, so it raises (an UnboundLocalError, which is a NameError). This is modelled as `Err(UnboundShapeParameter)`, not as a record.
- A disk whose direction set no axis is modelled as `Err(NoAxis)`, not as a precondition, because the constructor raises there after it has already allocated the radial record. This is a modelling choice, not a weaker contract.
- Distribution.TabulatedReadBack: only covers a tag without blanks. A one-character tag that is itself a blank (`' '`) leaves a trailing blank on the `si` line, and splitting that line at blanks does not give back the tokens.
- The model follows the code in these cases:
  - A disk inside a cell allocates two radial distributions, and the cell's `rad=` refers to the second.
  - `polimi` silently skips elements that are neither ints nor cells, but still counts them in the header.
  - `phys` writes no card for an unknown particle tag and raises nothing for it.

## Findings

| source | as written | input that shows it | evidently intended | confidence | as-written member | corrected member |
|---|---|---|---|---|---|---|
| source.py:74 | `dist(type='Watt', dist_num=...)` passes a keyword that `dist.__init__` (source.py:86) does not accept, so it raises TypeError | `source(particle='fission', pos=[0, 0, 0])`: a fission point source with no spectrum | `spectrum_type='Watt'`, which reaches the Watt branch (source.py:107-111) and writes `sp<n> -3 a b` | not executed | SourceEncoder.FissionRaisesAsWritten, SourceEncoder.FissionPointSource | SourceEncoder.FissionGetsWatt |
