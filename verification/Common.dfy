/** Small vocabulary shared by every module. */
module Common {
  /** A nullable value: Python's `T | None`, SQL's NULL. */
  datatype Option<+T> = None | Some(value: T)

  /** A call that returns or raises; the exception's identity rarely matters, only that it propagates. */
  datatype Result<+T> = Ok(value: T) | Raised

  /** `"".join(parts)`. */
  function Join(parts: seq<string>): string {
    if parts == [] then "" else parts[0] + Join(parts[1..])
  }

  lemma {:induction false} JoinAppend(xs: seq<string>, ys: seq<string>)
    ensures Join(xs + ys) == Join(xs) + Join(ys)
  {
    if xs == [] {
      assert xs + ys == ys;
    } else {
      assert (xs + ys)[1..] == xs[1..] + ys;
      JoinAppend(xs[1..], ys);
    }
  }

  lemma JoinSingle(x: string)
    ensures Join([x]) == x
  {
    assert [x][1..] == [];
  }

  lemma JoinSnoc(xs: seq<string>, x: string)
    ensures Join(xs + [x]) == Join(xs) + x
  {
    JoinAppend(xs, [x]);
    JoinSingle(x);
  }
}
