/** Small value types shared by all modules. */
module Common {

  datatype Option<+T> = None | Some(value: T) {
    function GetOr(default: T): T {
      match this
      case Some(v) => v
      case None => default
    }
  }

  datatype Result<+T, +E> = Ok(value: T) | Err(error: E)

  /** One field of a partial update: left out, or overwritten. */
  datatype Change<+T> = Keep | Set(value: T) {
    function Apply(current: T): T {
      match this
      case Keep => current
      case Set(v) => v
    }
  }

  /** A byte of a wire format. */
  type byte = x: int | 0 <= x < 256

  /** Concatenation of a sequence of pieces. */
  function Flatten<T>(pieces: seq<seq<T>>): (all: seq<T>)
  {
    if pieces == [] then [] else pieces[0] + Flatten(pieces[1..])
  }

  lemma {:induction false} FlattenAppend<T>(xs: seq<seq<T>>, ys: seq<seq<T>>)
    ensures Flatten(xs + ys) == Flatten(xs) + Flatten(ys)
  {
    if xs == [] {
      assert xs + ys == ys;
    } else {
      FlattenAppend(xs[1..], ys);
      assert (xs + ys)[1..] == xs[1..] + ys;
    }
  }
}
