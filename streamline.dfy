/**
 * The Streamline value produced by the tracker (Streamline.h) and the two
 * pipeline stages that consume it: the truncator and the lengths sink.
 *
 * getLength() and trim() are declared in Streamline.h but defined in
 * Streamline.cpp, which is not part of this model: every operation that uses
 * them takes the definition as a function parameter.
 */
module Streamlines {
  import opened Geometry

  datatype PointType = VoxelPointType | WorldPointType

  datatype TerminationReason =
    | UnknownReason | BoundsReason | MaskReason | OneWayReason
    | TargetReason | NoDataReason | LoopReason | CurvatureReason

  /** getLength(points) of a side, given the streamline's point type, voxel size and spacing flag. */
  type PathLength = (seq<Vec>, PointType, Vec, bool) -> real

  /** trim(points, maxLength) of a side, given the same context. */
  type Trimmer = (seq<Vec>, PointType, Vec, bool, real) -> seq<Vec>

  /** size_t is 64 bits wide: arithmetic on it is modulo 2^64. */
  const SizeModulus: int := 0x1_0000_0000_0000_0000

  function SizeT(n: int): nat { n % SizeModulus }

  function Max(a: int, b: int): int { if a < b then b else a }

  /** Every field of a streamline, as one value, to say what an operation leaves alone. */
  datatype Fields = Fields(
    leftPoints: seq<Vec>, rightPoints: seq<Vec>, pointType: PointType, voxelDims: Vec,
    labels: set<int>, leftTerminationReason: TerminationReason,
    rightTerminationReason: TerminationReason, fixedSpacing: bool)

  class Streamline {
    var leftPoints: seq<Vec>
    var rightPoints: seq<Vec>
    var pointType: PointType
    var voxelDims: Vec
    var labels: set<int>
    var leftTerminationReason: TerminationReason
    var rightTerminationReason: TerminationReason
    var fixedSpacing: bool

    function Snapshot(): Fields
      reads this
    {
      Fields(leftPoints, rightPoints, pointType, voxelDims, labels,
             leftTerminationReason, rightTerminationReason, fixedSpacing)
    }

    /** The five-argument constructor: no labels, both termination reasons unknown. */
    constructor (leftPoints: seq<Vec>, rightPoints: seq<Vec>, pointType: PointType,
                 voxelDims: Vec, fixedSpacing: bool)
      ensures Snapshot() == Fields(leftPoints, rightPoints, pointType, voxelDims, {},
                                   UnknownReason, UnknownReason, fixedSpacing)
    {
      this.leftPoints := leftPoints;
      this.rightPoints := rightPoints;
      this.pointType := pointType;
      this.voxelDims := voxelDims;
      this.labels := {};
      this.leftTerminationReason := UnknownReason;
      this.rightTerminationReason := UnknownReason;
      this.fixedSpacing := fixedSpacing;
    }

    /**
     * nPoints(), as written: max(size_t(|left| + |right|) - 1, 0). The seed is
     * counted once; but the subtraction is on size_t, where max with 0 changes
     * nothing, so an empty streamline wraps round to 2^64 - 1.
     */
    function NPoints(): (n: nat)
      reads this
      ensures n < SizeModulus
      ensures 1 <= |leftPoints| + |rightPoints| <= SizeModulus ==> n + 1 == |leftPoints| + |rightPoints|
      ensures leftPoints == [] && rightPoints == [] ==> n == SizeModulus - 1
    {
      Max(SizeT(SizeT(|leftPoints| + |rightPoints|) - 1), 0)
    }

    /** nPoints() as evidently intended: the seed counted once, and 0 for an empty streamline. */
    function NPointsClamped(): (n: nat)
      reads this
      ensures n <= |leftPoints| + |rightPoints|
      ensures n == 0 <==> |leftPoints| + |rightPoints| <= 1
      ensures |leftPoints| + |rightPoints| >= 1 ==> n + 1 == |leftPoints| + |rightPoints|
    {
      if |leftPoints| + |rightPoints| > 0 then |leftPoints| + |rightPoints| - 1 else 0
    }

    /**
     * getSeedIndex(), as written: max(size_t(|left|) - 1, 0). The seed is the
     * last left point; with no left points (after a must-leave discard, for
     * one) the index wraps round to 2^64 - 1.
     */
    function SeedIndex(): (n: nat)
      reads this
      ensures n < SizeModulus
      ensures 1 <= |leftPoints| <= SizeModulus ==> n + 1 == |leftPoints|
      ensures leftPoints == [] ==> n == SizeModulus - 1
    {
      Max(SizeT(SizeT(|leftPoints|) - 1), 0)
    }

    /** getSeedIndex() as evidently intended: the index of the last left point, 0 when there is none. */
    function SeedIndexClamped(): (n: nat)
      reads this
      ensures leftPoints != [] ==> n < |leftPoints| && n + 1 == |leftPoints|
      ensures leftPoints == [] ==> n == 0
    {
      if |leftPoints| > 0 then |leftPoints| - 1 else 0
    }

    function LeftLength(length: PathLength): real
      reads this
    {
      length(leftPoints, pointType, voxelDims, fixedSpacing)
    }

    function RightLength(length: PathLength): real
      reads this
    {
      length(rightPoints, pointType, voxelDims, fixedSpacing)
    }

    /** trimLeft(maxLength): replaces the left points by their trimmed form and nothing else. */
    method TrimLeft(maxLength: real, trim: Trimmer)
      modifies this
      ensures Snapshot() == old(Snapshot()).(
        leftPoints := trim(old(leftPoints), pointType, voxelDims, fixedSpacing, maxLength))
    {
      leftPoints := trim(leftPoints, pointType, voxelDims, fixedSpacing, maxLength);
    }

    /** trimRight(maxLength): replaces the right points by their trimmed form and nothing else. */
    method TrimRight(maxLength: real, trim: Trimmer)
      modifies this
      ensures Snapshot() == old(Snapshot()).(
        rightPoints := trim(old(rightPoints), pointType, voxelDims, fixedSpacing, maxLength))
    {
      rightPoints := trim(rightPoints, pointType, voxelDims, fixedSpacing, maxLength);
    }

    function NLabels(): int
      reads this
    {
      |labels|
    }

    predicate HasLabel(l: int)
      reads this
    {
      l in labels
    }

    /**
     * addLabel(label): true exactly when the label was absent; afterwards it
     * is present, and the count has grown by one exactly when it was inserted.
     */
    method AddLabel(l: int) returns (inserted: bool)
      modifies this
      ensures inserted <==> !old(HasLabel(l))
      ensures HasLabel(l)
      ensures NLabels() == old(NLabels()) + (if inserted then 1 else 0)
      ensures Snapshot() == old(Snapshot()).(labels := old(labels) + {l})
    {
      inserted := l !in labels;
      ghost var before := labels;
      labels := labels + {l};
      if !inserted {
        assert labels == before;
      }
    }

    /** removeLabel(label): true exactly when the label was present; afterwards it is absent. */
    method RemoveLabel(l: int) returns (erased: bool)
      modifies this
      ensures erased <==> old(HasLabel(l))
      ensures !HasLabel(l)
      ensures NLabels() == old(NLabels()) - (if erased then 1 else 0)
      ensures Snapshot() == old(Snapshot()).(labels := old(labels) - {l})
    {
      erased := l in labels;
      labels := labels - {l};
    }

    /** setLabels(labels): replaces the label set and nothing else. */
    method SetLabels(newLabels: set<int>)
      modifies this
      ensures Snapshot() == old(Snapshot()).(labels := newLabels)
    {
      labels := newLabels;
    }

    /** clearLabels(): empties the label set and changes nothing else. */
    method ClearLabels()
      modifies this
      ensures NLabels() == 0
      ensures Snapshot() == old(Snapshot()).(labels := {})
    {
      labels := {};
    }

    /** setTerminationReasons(left, right): sets exactly the two reasons. */
    method SetTerminationReasons(left: TerminationReason, right: TerminationReason)
      modifies this
      ensures Snapshot() == old(Snapshot()).(leftTerminationReason := left,
                                             rightTerminationReason := right)
    {
      leftTerminationReason := left;
      rightTerminationReason := right;
    }
  }

  /** An empty streamline: nPoints and getSeedIndex wrap, their clamped forms give 0. */
  lemma EmptyStreamlineCounts(s: Streamline)
    requires s.leftPoints == [] && s.rightPoints == []
    ensures s.NPoints() == SizeModulus - 1 && s.SeedIndex() == SizeModulus - 1
    ensures s.NPointsClamped() == 0 && s.SeedIndexClamped() == 0
  {
  }

  /** A data manipulator that trims both sides of each streamline and accepts every one. */
  class StreamlineTruncator {
    const maxLeftLength: real
    const maxRightLength: real

    constructor (maxLeftLength: real, maxRightLength: real)
      ensures this.maxLeftLength == maxLeftLength && this.maxRightLength == maxRightLength
    {
      this.maxLeftLength := maxLeftLength;
      this.maxRightLength := maxRightLength;
    }

    /** process(data): the left side trimmed to maxLeftLength, the right to maxRightLength; always true. */
    method Process(data: Streamline, trim: Trimmer) returns (accepted: bool)
      modifies data
      ensures accepted
      ensures data.Snapshot() == old(data.Snapshot()).(
        leftPoints := trim(old(data.leftPoints), data.pointType, data.voxelDims, data.fixedSpacing, maxLeftLength),
        rightPoints := trim(old(data.rightPoints), data.pointType, data.voxelDims, data.fixedSpacing, maxRightLength))
    {
      data.TrimLeft(maxLeftLength, trim);
      data.TrimRight(maxRightLength, trim);
      accepted := true;
    }
  }

  /** A data sink that collects the total length of every streamline put into it. */
  class StreamlineLengthsDataSink {
    var lengths: seq<real>

    constructor ()
      ensures lengths == []
    {
      lengths := [];
    }

    /** put(data): appends exactly one element, the left length plus the right length. */
    method Put(data: Streamline, length: PathLength)
      modifies this
      ensures |lengths| == |old(lengths)| + 1
      ensures lengths[..|old(lengths)|] == old(lengths)
      ensures lengths[|old(lengths)|] == data.LeftLength(length) + data.RightLength(length)
    {
      lengths := lengths + [data.LeftLength(length) + data.RightLength(length)];
    }

    function GetLengths(): seq<real>
      reads this
    {
      lengths
    }
  }
}
