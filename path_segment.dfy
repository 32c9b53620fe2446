/**
  * PathSegment: immutable error-path descriptors that point at their
  * parent, and their rendering as `$`, `.key` and `[index]` pieces.
  */
module PathSegment {
  import opened Wrappers
  import opened JavaText

  datatype Segment =
    | Root
    | StringSegment(parent: Segment, segment: string)
    | IndexSegment(parent: Segment, index: int)

  function Sub(p: Segment, key: string): (s: Segment)
    ensures Parent(s) == Some(p)
  {
    StringSegment(p, key)
  }

  function SubIndex(p: Segment, key: int): (s: Segment)
    ensures Parent(s) == Some(p)
  {
    IndexSegment(p, key)
  }

  /** parent(): the root has none (null). */
  function Parent(s: Segment): Option<Segment>
  {
    if s.Root? then None else Some(s.parent)
  }

  function Depth(s: Segment): nat
  {
    if s.Root? then 0 else 1 + Depth(s.parent)
  }

  /** The segment n steps up the parent chain. */
  function Ancestor(s: Segment, n: nat): (a: Segment)
    requires n <= Depth(s)
    ensures Depth(a) == Depth(s) - n
  {
    if n == 0 then s else Ancestor(s.parent, n - 1)
  }

  /** The text one non-root segment adds. */
  function Piece(s: Segment): string
    requires !s.Root?
  {
    if s.StringSegment? then "." + s.segment else "[" + IntToString(s.index) + "]"
  }

  /** The rendering toString promises: the parent's rendering followed by this segment's piece. */
  function Render(s: Segment): (r: string)
    ensures |r| >= 1 && r[0] == '$'
  {
    if s.Root? then "$" else Render(s.parent) + Piece(s)
  }

  /** Rendering "%s[%d]" and "%s.%s" on strings agrees with sub on segments. */
  lemma RenderSub(p: Segment, key: string, i: int)
    ensures Render(Sub(p, key)) == Render(p) + "." + key
    ensures Render(SubIndex(p, i)) == Render(p) + "[" + IntToString(i) + "]"
  {
  }

  lemma {:induction false} AncestorStep(s: Segment, n: nat)
    requires n < Depth(s)
    ensures !Ancestor(s, n).Root? && Ancestor(s, n).parent == Ancestor(s, n + 1)
  {
    if n > 0 {
      AncestorStep(s.parent, n - 1);
    }
  }

  lemma {:induction false} AncestorAtDepthIsRoot(s: Segment)
    ensures Ancestor(s, Depth(s)) == Root
    decreases s
  {
    if !s.Root? {
      AncestorAtDepthIsRoot(s.parent);
    }
  }

  /**
    * buildString: count the depth up to ROOT, fill the hierarchy array from
    * the back, then append "$" and one piece per segment, root-most first.
    */
  method BuildString(s: Segment) returns (r: string)
    ensures r == Render(s)
  {
    var depth := 0;
    var curr := s;
    while !curr.Root?
      invariant depth <= Depth(s) && curr == Ancestor(s, depth)
      decreases Depth(s) - depth
    {
      AncestorStep(s, depth);
      depth := depth + 1;
      curr := curr.parent;
    }
    AncestorAtDepthIsRoot(s);
    var hierarchy := new Segment[depth](_ => Root);
    curr := s;
    var i := depth - 1;
    while i >= 0
      invariant -1 <= i < depth
      invariant curr == Ancestor(s, depth - 1 - i)
      invariant forall j | i < j < depth :: hierarchy[j] == Ancestor(s, depth - 1 - j) && !hierarchy[j].Root?
    {
      AncestorStep(s, depth - 1 - i);
      hierarchy[i] := curr;
      curr := curr.parent;
      i := i - 1;
    }
    r := "$";
    var k := 0;
    while k < depth
      invariant 0 <= k <= depth
      invariant r == Render(Ancestor(s, depth - k))
      invariant forall j | 0 <= j < depth :: hierarchy[j] == Ancestor(s, depth - 1 - j) && !hierarchy[j].Root?
    {
      AncestorStep(s, depth - k - 1);
      r := r + Piece(hierarchy[k]);
      k := k + 1;
    }
  }
}
