/**
 * The client's move encoding: each of the four direction words becomes a
 * two-entry 0/1 vector, the plaintext that is then encrypted and sent.
 */
module MoveEncoding {
  import opened Wrappers

  /** The direction words the client accepts. */
  const Directions: set<string> := {"up", "down", "left", "right"}

  const InvalidDirection := "Invalid direction"

  /** The vector for a direction word; any other word is a `ValueError`. */
  function DirectionToVector(direction: string): (r: Result<seq<int>, string>)
    ensures r.Success? <==> direction in Directions
    ensures r.Failure? ==> r.error == InvalidDirection
    ensures r.Success? ==> |r.value| == 2 && forall i :: 0 <= i < 2 ==> 0 <= r.value[i] <= 1
  {
    if direction == "up" then Success([0, 0])
    else if direction == "down" then Success([0, 1])
    else if direction == "left" then Success([1, 0])
    else if direction == "right" then Success([1, 1])
    else Failure(InvalidDirection)
  }

  /** The direction a vector encodes, if any: the inverse of the encoding. */
  function VectorToDirection(v: seq<int>): Option<string>
  {
    if v == [0, 0] then Some("up")
    else if v == [0, 1] then Some("down")
    else if v == [1, 0] then Some("left")
    else if v == [1, 1] then Some("right")
    else None
  }

  /** Encoding then decoding gives back the direction, and decoding then encoding the vector. */
  lemma {:induction false} EncodingRoundTrip(direction: string, v: seq<int>)
    ensures DirectionToVector(direction).Success? ==>
      VectorToDirection(DirectionToVector(direction).value) == Some(direction)
    ensures VectorToDirection(v).Some? ==>
      DirectionToVector(VectorToDirection(v).value) == Success(v)
  {
  }

  /** Distinct directions get distinct vectors, and every 0/1 pair is the code of some direction. */
  lemma EncodingBijective(d1: string, d2: string, v: seq<int>)
    ensures DirectionToVector(d1).Success? && DirectionToVector(d2) == DirectionToVector(d1) ==> d1 == d2
    ensures |v| == 2 && 0 <= v[0] <= 1 && 0 <= v[1] <= 1 ==>
      exists d :: d in Directions && DirectionToVector(d) == Success(v)
  {
    if DirectionToVector(d1).Success? && DirectionToVector(d2) == DirectionToVector(d1) {
      EncodingRoundTrip(d1, []);
      EncodingRoundTrip(d2, []);
    }
    if |v| == 2 && 0 <= v[0] <= 1 && 0 <= v[1] <= 1 {
      assert v == [v[0], v[1]];
      var d := VectorToDirection(v).value;
      EncodingRoundTrip(d, v);
    }
  }
}
