/**
 How a chat message's text is rendered: `content.split('```')`, with the
 even-indexed parts shown as prose paragraphs and the odd-indexed parts as
 code blocks.
 */
module CodeFence {

  const Fence := "```"

  /** A fence starts at index `i` of `s`. */
  predicate FenceAt(s: string, i: int) {
    0 <= i && i + 3 <= |s| && s[i] == '`' && s[i + 1] == '`' && s[i + 2] == '`'
  }

  /** `s` contains no fence. */
  predicate NoFence(s: string) {
    forall i :: 0 <= i < |s| ==> !FenceAt(s, i)
  }

  /** The index of the first fence at or after `from`, or `|s|` when there is none. */
  function FindFence(s: string, from: nat): (k: nat)
    requires from <= |s|
    ensures from <= k <= |s|
    ensures k < |s| ==> FenceAt(s, k)
    ensures forall i :: from <= i < k ==> !FenceAt(s, i)
    ensures k == |s| ==> forall i :: from <= i ==> !FenceAt(s, i)
    decreases |s| - from
  {
    if from == |s| then |s|
    else if FenceAt(s, from) then from
    else FindFence(s, from + 1)
  }

  /** `s.split('```')`: the pieces between fences, left to right; never empty. */
  function Split(s: string): (parts: seq<string>)
    ensures |parts| >= 1
    ensures forall i :: 0 <= i < |parts| ==> NoFence(parts[i])
    ensures forall i :: 0 <= i < |parts| - 1 ==> |parts[i]| == 0 || parts[i][|parts[i]| - 1] != '`'
    decreases |s|
  {
    var k := FindFence(s, 0);
    if k == |s| then [s]
    else
      assert forall i :: !FenceAt(s[..k], i) by {
        forall i ensures !FenceAt(s[..k], i) {
          assert FenceAt(s[..k], i) ==> FenceAt(s, i);
        }
      }
      // the fence found is the leftmost, so the text before it cannot end in a backtick
      assert k == 0 || s[k - 1] != '`' by {
        if k > 0 { assert !FenceAt(s, k - 1); }
      }
      var rest := Split(s[k + 3..]);
      var parts := [s[..k]] + rest;
      assert forall i :: 1 <= i < |parts| ==> parts[i] == rest[i - 1];
      parts
  }

  /** `parts.join('```')`. */
  function Join(parts: seq<string>): string {
    if |parts| == 0 then ""
    else if |parts| == 1 then parts[0]
    else parts[0] + Fence + Join(parts[1..])
  }

  /** Joining the pieces back with the fence gives the original text. */
  lemma {:induction false} JoinSplit(s: string)
    ensures Join(Split(s)) == s
    decreases |s|
  {
    var k := FindFence(s, 0);
    if k < |s| {
      var rest := s[k + 3..];
      JoinSplit(rest);
      var tail := Split(rest);
      assert Split(s) == [s[..k]] + tail;
      assert (Split(s))[1..] == tail;
      assert s == s[..k] + Fence + rest;
    }
  }

  /** A text with no fence that does not end in a backtick can be followed by a fence without creating an earlier one. */
  lemma {:induction false} SplitAfterPlain(p: string, rest: string)
    requires NoFence(p)
    requires |p| == 0 || p[|p| - 1] != '`'
    ensures Split(p + Fence + rest) == [p] + Split(rest)
  {
    var s := p + Fence + rest;
    forall i | 0 <= i < |p| ensures !FenceAt(s, i) {
      if i + 3 <= |p| {
        assert FenceAt(s, i) == FenceAt(p, i);
      } else {
        assert s[|p| - 1] == p[|p| - 1];
      }
    }
    assert FenceAt(s, |p|);
    assert FindFence(s, 0) == |p|;
    assert s[..|p|] == p;
    assert s[|p| + 3..] == rest;
  }

  /** Two fence-free texts stay fence-free when joined, provided a backtick-free seam keeps a fence from straddling it. */
  lemma NoFenceConcat(a: string, b: string)
    requires NoFence(a) && NoFence(b)
    requires (|a| == 0 || a[|a| - 1] != '`') || (|b| == 0 || b[0] != '`')
    ensures NoFence(a + b)
  {
    var s := a + b;
    forall i | 0 <= i < |s| ensures !FenceAt(s, i) {
      if i + 3 <= |a| {
        assert FenceAt(s, i) == FenceAt(a, i);
      } else if i >= |a| {
        assert FenceAt(s, i) == FenceAt(b, i - |a|);
      } else {
        assert s[|a| - 1] == a[|a| - 1];
        if i + 3 <= |s| { assert s[|a|] == b[0]; }
      }
    }
  }

  /** One rendered block of a message. */
  datatype Block = Prose(text: string) | Code(text: string)

  /** `content.split('```').map((part, i) => i % 2 === 0 ? <p> : <pre><code>)`. */
  function Render(content: string): (blocks: seq<Block>)
    ensures |blocks| == |Split(content)|
    ensures forall i :: 0 <= i < |blocks| ==> blocks[i].text == Split(content)[i]
    ensures forall i :: 0 <= i < |blocks| ==> (blocks[i].Code? <==> i % 2 == 1)
  {
    var parts := Split(content);
    seq(|parts|, i requires 0 <= i < |parts| => if i % 2 == 0 then Prose(parts[i]) else Code(parts[i]))
  }

  /** The texts of rendered blocks, in order. */
  function Texts(blocks: seq<Block>): seq<string> {
    seq(|blocks|, i requires 0 <= i < |blocks| => blocks[i].text)
  }

  /** The texts of the rendered blocks, joined with fences, give back the message content. */
  lemma RenderLosesNothing(content: string)
    ensures Join(Texts(Render(content))) == content
  {
    var blocks := Render(content);
    assert Texts(blocks) == Split(content);
    JoinSplit(content);
  }
}
