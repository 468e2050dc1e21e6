/** Small building blocks shared by every module: optional values, service
    results and ordered enumeration of finite sets. */
module Common {
  datatype Option<+T> = None | Some(value: T)

  /** The typed application errors of errors/apperrors.go. */
  datatype Error =
    | Validation(reason: string)
    | Unauthorized(reason: string)
    | Forbidden(reason: string)
    | NotFound
    | Conflict
    | Internal

  datatype Result<+T> = Ok(value: T) | Err(error: Error)

  /** An abstract collision-free hash: equal digests come from equal inputs. */
  datatype Digest<+T> = Digest(preimage: T)

  function Abs(x: int): nat {
    if x < 0 then -x else x
  }

  // ---- enumerating a finite set of numbers in ascending order ----

  /** Searching upwards from a lower bound. */
  lemma {:induction false} LeastExists(s: set<nat>, from: nat, some: nat)
    requires some in s && forall x | x in s :: from <= x
    ensures exists m :: m in s && forall x | x in s :: m <= x
    decreases some - from
  {
    if from !in s {
      LeastExists(s, from + 1, some);
    }
  }

  lemma {:induction false} Greatest(s: set<nat>) returns (m: nat)
    requires s != {}
    ensures m in s && forall x | x in s :: x <= m
  {
    m :| m in s;
    var rest := s - {m};
    if rest != {} {
      var n := Greatest(rest);
      forall x | x in s ensures x <= m || x <= n {
        assert x == m || x in rest;
      }
      m := if m >= n then m else n;
    } else {
      assert s == {m};
    }
  }

  function Least(s: set<nat>): (m: nat)
    requires s != {}
    ensures m in s && forall x | x in s :: m <= x
  {
    var some :| some in s;
    LeastExists(s, 0, some);
    var m :| m in s && forall x | x in s :: m <= x;
    m
  }

  predicate Ascending(r: seq<nat>) {
    forall i, j | 0 <= i < j < |r| :: r[i] < r[j]
  }

  lemma AscendingIndex(r: seq<nat>, i: nat, j: nat)
    requires Ascending(r) && i < |r| && j < |r|
    ensures r[i] < r[j] <==> i < j
  {
    if j < i {
      assert r[j] < r[i];
    }
  }

  lemma {:induction false} FewerThanPlaces<T>(xs: seq<T>)
    ensures |set x | x in xs| <= |xs|
  {
    if xs != [] {
      var init, x := xs[..|xs| - 1], xs[|xs| - 1];
      FewerThanPlaces(init);
      assert xs == init + [x];
      assert (set y | y in xs) == (set y | y in init) + {x};
    }
  }

  /** A list as long as its set of members repeats nothing. */
  lemma {:induction false} NoRepeats<T>(xs: seq<T>)
    requires |xs| == |set x | x in xs|
    ensures forall i, j | 0 <= i < j < |xs| :: xs[i] != xs[j]
  {
    if xs != [] {
      var init, x := xs[..|xs| - 1], xs[|xs| - 1];
      FewerThanPlaces(init);
      assert xs == init + [x];
      assert (set y | y in xs) == (set y | y in init) + {x};
      NoRepeats(init);
    }
  }

  lemma LastIsGreatest(r: seq<nat>)
    requires Ascending(r) && r != []
    ensures forall x | x in r :: x <= r[|r| - 1]
  {
    forall x | x in r ensures x <= r[|r| - 1] {
      var i :| 0 <= i < |r| && r[i] == x;
    }
  }

  /** The members of a set, smallest first. */
  function Sorted(s: set<nat>): (r: seq<nat>)
    ensures Ascending(r)
    ensures forall x :: x in s <==> x in r
    ensures |r| == |s|
    decreases |s|
  {
    if s == {} then []
    else
      var m := Least(s);
      [m] + Sorted(s - {m})
  }
}
