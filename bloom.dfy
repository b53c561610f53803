/** Buffer bookkeeping of the bloom post-process: which of the two ping-pong
    framebuffers each Gaussian blur pass renders into, which texture it
    samples, and which blurred texture the final composite reads. */
module Bloom {

  /** The HDR scene's two colour attachments (0: the lit scene, 1: its bright
      parts) and the two ping-pong colour buffers. */
  datatype Texture = SceneColour(index: nat) | PingPong(index: nat)

  /** One blur pass: the ping-pong buffer it renders into, the blur direction
      it is told, and the texture it samples. */
  datatype BlurPass = BlurPass(target: nat, horizontal: bool, input: Texture)

  /** Number of blur passes per frame. */
  const BlurPassCount: nat := 5

  /** A boolean used as a buffer index. */
  function Index(b: bool): nat
  {
    if b then 1 else 0
  }

  /** Runs the blur loop for `amount` passes, starting horizontal, and returns
      the passes in order and the texture the composite samples afterwards. */
  method BlurSchedule(amount: nat) returns (passes: seq<BlurPass>, bloomInput: Texture)
    ensures |passes| == amount
    ensures forall i :: 0 <= i < amount ==>
      passes[i].horizontal == (i % 2 == 0) && passes[i].target == Index(i % 2 == 0)
    ensures amount > 0 ==> passes[0].input == SceneColour(1)
    ensures forall i :: 0 < i < amount ==> passes[i].input == PingPong(passes[i - 1].target)
    ensures forall i :: 0 <= i < amount ==> passes[i].input != PingPong(passes[i].target)
    ensures amount > 0 ==> bloomInput == PingPong(passes[amount - 1].target)
    ensures amount == 0 ==> bloomInput == PingPong(0)
    ensures amount % 2 == 1 ==> bloomInput == PingPong(1)
  {
    var horizontal, firstIteration := true, true;
    passes := [];
    var i := 0;
    while i < amount
      invariant 0 <= i <= amount && |passes| == i
      invariant horizontal == (i % 2 == 0)
      invariant firstIteration == (i == 0)
      invariant forall k :: 0 <= k < i ==>
        passes[k].horizontal == (k % 2 == 0) && passes[k].target == Index(k % 2 == 0)
      invariant i > 0 ==> passes[0].input == SceneColour(1)
      invariant forall k :: 0 < k < i ==> passes[k].input == PingPong(passes[k - 1].target)
      invariant forall k :: 0 <= k < i ==> passes[k].input != PingPong(passes[k].target)
    {
      var input := if firstIteration then SceneColour(1) else PingPong(Index(!horizontal));
      passes := passes + [BlurPass(Index(horizontal), horizontal, input)];
      horizontal := !horizontal;
      if firstIteration {
        firstIteration := false;
      }
      i := i + 1;
    }
    bloomInput := PingPong(Index(!horizontal));
  }
}
