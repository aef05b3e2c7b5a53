/**
 * The audio activity check applied to an inbound media frame before it is
 * forwarded to the transcription service (app.py, `any(b != 0 for b in chunk)`).
 */
module Audio {

  /** One byte of a decoded media payload. */
  newtype byte = b: int | 0 <= b < 256

  /** A frame carries audio exactly when at least one of its bytes is non-zero. */
  function HasAudio(chunk: seq<byte>): (r: bool)
    ensures r <==> exists i | 0 <= i < |chunk| :: chunk[i] != 0
  {
    if chunk == [] then false
    else if chunk[0] != 0 then true
    else
      var rest := HasAudio(chunk[1..]);
      assert forall i | 1 <= i < |chunk| :: chunk[i] == chunk[1..][i - 1];
      rest
  }

  /** A frame of `n` zero bytes (silence). */
  function Silence(n: nat): seq<byte> {
    seq(n, _ => 0)
  }

  /** A frame is silent, and so dropped by the check, exactly when all of its bytes are zero. */
  lemma SilentIffAllZero(chunk: seq<byte>)
    ensures !HasAudio(chunk) <==> forall i | 0 <= i < |chunk| :: chunk[i] == 0
  {
  }
}
