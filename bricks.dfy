// Brick instances and the active-brick counter's meaning.

module Bricks {

  /** The four brick values of a level cell (0, 1, 2, 3). */
  datatype Kind = Empty | Normal | Strong | Invuln

  /**
   * A placed brick: its top-left corner, its kind, and whether a strong
   * brick has already taken its first hit.
   */
  datatype Brick = Brick(x: real, y: real, kind: Kind, hit: bool)

  /** The kind a cell value creates; any other value creates no brick. */
  function KindOf(v: int): (k: Option<Kind>)
    ensures k.Some? <==> 0 <= v <= 3
    ensures k == Some(Normal) || k == Some(Strong) <==> v == 1 || v == 2
  {
    match v
    case 0 => Some(Empty)
    case 1 => Some(Normal)
    case 2 => Some(Strong)
    case 3 => Some(Invuln)
    case _ => None
  }

  datatype Option<T> = None | Some(value: T)

  /** Normal and strong bricks are the ones that must be cleared. */
  predicate IsActive(b: Brick) {
    b.kind == Normal || b.kind == Strong
  }

  /** Number of active bricks in a list. */
  function ActiveCount(bs: seq<Brick>): nat {
    if bs == [] then 0
    else ActiveCount(bs[..|bs| - 1]) + (if IsActive(bs[|bs| - 1]) then 1 else 0)
  }

  /** createBrick: the bricks a cell value adds at (x, y), none or one, never already hit. */
  function NewBrick(x: real, y: real, v: int): (bs: seq<Brick>)
    ensures |bs| <= 1
    ensures bs != [] <==> 0 <= v <= 3
    ensures forall i :: 0 <= i < |bs| ==> bs[i].x == x && bs[i].y == y && !bs[i].hit
    ensures ActiveCount(bs) == if v == 1 || v == 2 then 1 else 0
  {
    match KindOf(v)
    case None => []
    case Some(k) => [Brick(x, y, k, false)]
  }

  lemma {:induction false} ActiveCountAppend(a: seq<Brick>, b: seq<Brick>)
    ensures ActiveCount(a + b) == ActiveCount(a) + ActiveCount(b)
    decreases |b|
  {
    if b == [] {
      assert a + b == a;
    } else {
      var b' := b[..|b| - 1];
      assert (a + b)[..|a + b| - 1] == a + b';
      ActiveCountAppend(a, b');
    }
  }

  /** The list without its i-th brick, order otherwise kept. */
  function Remove(bs: seq<Brick>, i: nat): (r: seq<Brick>)
    requires i < |bs|
    ensures |r| == |bs| - 1
    ensures forall j :: 0 <= j < i ==> r[j] == bs[j]
    ensures forall j :: i <= j < |r| ==> r[j] == bs[j + 1]
  {
    bs[..i] + bs[i + 1..]
  }

  /** The count of a list is the count before position i, brick i, and the count after it. */
  lemma CountSplit(bs: seq<Brick>, i: nat)
    requires i < |bs|
    ensures ActiveCount(bs) == ActiveCount(bs[..i]) + (if IsActive(bs[i]) then 1 else 0) + ActiveCount(bs[i + 1..])
  {
    assert bs[..i + 1][..i] == bs[..i];
    assert bs[..i + 1] + bs[i + 1..] == bs;
    ActiveCountAppend(bs[..i + 1], bs[i + 1..]);
  }

  /** Removing a brick lowers the count by one exactly when that brick was active. */
  lemma RemoveCount(bs: seq<Brick>, i: nat)
    requires i < |bs|
    ensures ActiveCount(Remove(bs, i)) == ActiveCount(bs) - (if IsActive(bs[i]) then 1 else 0)
  {
    CountSplit(bs, i);
    ActiveCountAppend(bs[..i], bs[i + 1..]);
  }

  /** Replacing a brick by one of the same activeness leaves the count alone. */
  lemma ReplaceCount(bs: seq<Brick>, i: nat, b: Brick)
    requires i < |bs| && IsActive(b) == IsActive(bs[i])
    ensures ActiveCount(bs[i := b]) == ActiveCount(bs)
  {
    var bs' := bs[i := b];
    assert bs'[..i] == bs[..i] && bs'[i + 1..] == bs[i + 1..];
    CountSplit(bs, i);
    CountSplit(bs', i);
  }
}
