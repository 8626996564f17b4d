/**
How requests are spread over the server list: the retry loop of `ReqApi` and `ReqConfigApi`, whose
step grows by one after each failure, and the round-robin tickets of `GetNextServer`.
 */
module ServerProbe {
  import opened Wrappers

  const REQUEST_DOMAIN_RETRY_TIME: nat := 3

  // ---- The retry loop ----------------------------------------------------------------------

  /** The sum of the steps taken before attempt `i`: 1 + 2 + ... + (i - 1). */
  function Triangle(i: nat): nat {
    if i == 0 then 0 else Triangle(i - 1) + i - 1
  }

  /** The server tried by attempt `i`, counting from 1. */
  function Probe(start: nat, n: nat, i: nat): (s: nat)
    requires n > 0
    ensures s < n
  {
    (start + Triangle(i)) % n
  }

  lemma {:induction false} TriangleDouble(i: nat)
    ensures 2 * Triangle(i) == i * (i - 1)
  {
    if i > 0 {
      TriangleDouble(i - 1);
      assert i * (i - 1) == (i - 1) * (i - 2) + 2 * (i - 1);
    }
  }

  /** Attempt `i` goes to server (start + i(i-1)/2) mod n. */
  lemma ProbeClosedForm(start: nat, n: nat, i: nat)
    requires n > 0
    ensures Probe(start, n, i) == (start + i * (i - 1) / 2) % n
  {
    TriangleDouble(i);
  }

  /** The remainder is determined by any decomposition. */
  lemma ModUnique(a: nat, n: nat, q: nat, r: nat)
    requires 0 <= r < n && a == n * q + r
    ensures a % n == r
  {
    var d := a / n;
    assert a == n * d + a % n;
    if d < q {
      Apart(n, d, q);
    } else if q < d {
      Apart(n, q, d);
    }
  }

  lemma Grows(n: nat, q: nat)
    requires q > 0
    ensures n * q >= n
  {
    assert n * q == n * (q - 1) + n;
  }

  lemma Apart(n: nat, d: nat, q: nat)
    requires d < q
    ensures n * q >= n * d + n
  {
    Grows(n, q - d);
    assert n * q == n * d + n * (q - d);
  }

  lemma Decomposes(a: nat, n: nat)
    requires n > 0
    ensures a == n * (a / n) + a % n && 0 <= a % n < n
  {
  }

  lemma Distributes(n: nat, x: nat, y: nat)
    ensures n * (x + y) == n * x + n * y
  {
  }

  lemma ModAdd(a: nat, b: nat, n: nat)
    requires n > 0
    ensures (a % n + b) % n == (a + b) % n
  {
    var c := a % n + b;
    Decomposes(a, n);
    Decomposes(c, n);
    Distributes(n, a / n, c / n);
    ModUnique(a + b, n, a / n + c / n, c % n);
  }

  lemma ProbeStep(start: nat, n: nat, i: nat)
    requires n > 0
    ensures Probe(start, n, i + 1) == (Probe(start, n, i) + i) % n
  {
    assert start + Triangle(i + 1) == (start + Triangle(i)) + i;
    ModAdd(start + Triangle(i), i, n);
  }

  lemma OnlyServerFails(start: nat, call: (nat, nat) -> Result<string, string>)
    ensures Fails(start, 1, call) <==> forall i :: 1 <= i <= REQUEST_DOMAIN_RETRY_TIME ==> call(i, 0).Err?
  {
    assert forall i :: 1 <= i <= REQUEST_DOMAIN_RETRY_TIME ==> call(i, Probe(start, 1, i)) == call(i, 0);
  }

  /**
  `call(i, s)` is the outcome of attempt `i` on server `s`; `start` is the random first index.
  A request fails only when every attempt failed, and attempt `i` went to `Probe(start, n, i)`.
   */
  method ReqApi(n: nat, start: nat, call: (nat, nat) -> Result<string, string>) returns (r: Result<string, string>)
    requires n > 0 ==> start < n
    ensures n == 0 ==> r.Err?
    ensures n == 1 ==> r.Err? == (forall i :: 1 <= i <= REQUEST_DOMAIN_RETRY_TIME ==> call(i, 0).Err?)
    ensures n > 1 ==> r.Err? == (forall i :: 1 <= i <= n ==> call(i, Probe(start, n, i)).Err?)
    ensures n > 0 ==> (r.Err? <==> Fails(start, n, call))
    ensures n == 1 && r.Ok? ==>
      exists i :: 1 <= i <= REQUEST_DOMAIN_RETRY_TIME && call(i, 0) == r && forall j :: 1 <= j < i ==> call(j, 0).Err?
    ensures n > 1 && r.Ok? ==>
      exists i :: 1 <= i <= n && call(i, Probe(start, n, i)) == r
                  && forall j :: 1 <= j < i ==> call(j, Probe(start, n, j)).Err?
  {
    if n == 0 {
      return Err("server list is empty");
    }
    if n == 1 {
      OnlyServerFails(start, call);
      for i := 1 to REQUEST_DOMAIN_RETRY_TIME + 1
        invariant forall j :: 1 <= j < i ==> call(j, 0).Err?
      {
        r := call(i, 0);
        if r.Ok? {
          return;
        }
      }
      r := Err("retry times request failed!");
    } else {
      r := AskInTurn(n, start, call);
    }
  }

  lemma ProbeFirst(start: nat, n: nat)
    requires start < n
    ensures Probe(start, n, 1) == start
  {
    assert start + Triangle(1) == start;
  }

  /** The loop over several servers. */
  method AskInTurn(n: nat, start: nat, call: (nat, nat) -> Result<string, string>) returns (r: Result<string, string>)
    requires n > 1 && start < n
    ensures r.Err? == (forall i :: 1 <= i <= n ==> call(i, Probe(start, n, i)).Err?)
    ensures r.Ok? ==>
      exists i :: 1 <= i <= n && call(i, Probe(start, n, i)) == r
                  && forall j :: 1 <= j < i ==> call(j, Probe(start, n, j)).Err?
  {
    var index := start;
    ProbeFirst(start, n);
    for i := 1 to n + 1
      invariant index == Probe(start, n, i)
      invariant forall j :: 1 <= j < i ==> call(j, Probe(start, n, j)).Err?
    {
      r := call(i, index);
      if r.Ok? {
        return;
      }
      ProbeStep(start, n, i);
      index := (index + i) % n;
    }
    r := Err("retry times request failed!");
  }

  // ---- Which list lengths the loop covers --------------------------------------------------

  function Pow2(k: nat): (p: nat)
    ensures p > 0
  {
    if k == 0 then 1 else 2 * Pow2(k - 1)
  }

  ghost predicate IsPow2(n: nat) {
    exists k :: n == Pow2(k)
  }

  /** A power of two dividing a product with an odd factor divides the other factor. */
  lemma {:induction false} OddFactor(k: nat, x: nat, y: nat, q: nat) returns (r: nat)
    requires x * y == Pow2(k) * q && y % 2 == 1
    ensures x == Pow2(k) * r
  {
    if k == 0 {
      r := x;
    } else {
      var p := Pow2(k - 1);
      assert Pow2(k) * q == 2 * (p * q);
      var h := y / 2;
      assert y == 2 * h + 1;
      assert x * y == 2 * (x * h) + x;
      var z := p * q - x * h;
      assert x == 2 * z;
      assert z * y == p * q by {
        assert 2 * (z * y) == x * y;
      }
      r := OddFactor(k - 1, z, y, q);
      assert x == 2 * (p * r) == Pow2(k) * r;
    }
  }

  /** Equal remainders differ by a multiple. */
  lemma SameRemainder(a: nat, b: nat, n: nat) returns (q: nat)
    requires n > 0 && a <= b && a % n == b % n
    ensures b - a == n * q
  {
    assert a == n * (a / n) + a % n && b == n * (b / n) + b % n;
    var d := b / n - a / n;
    assert b - a == n * d;
    q := d;
  }

  lemma TriangleGap(i: nat, j: nat)
    requires 0 < i <= j
    ensures 2 * (Triangle(j) - Triangle(i)) == (j - i) * (j + i - 1)
    ensures Triangle(j) >= Triangle(i)
  {
    TriangleDouble(i);
    TriangleDouble(j);
    assert (j - i) * (j + i - 1) == j * (j - 1) - i * (i - 1);
    assert (j - i) * (j + i - 1) >= 0;
  }

  lemma SmallMultiple(x: nat, p: nat, r: nat)
    requires x == p * r && 0 < x
    ensures x >= p
  {
    assert r > 0;
    Grows(p, r);
  }

  /** With 2^k servers no two of the 2^k attempts go to the same server. */
  lemma PowerOfTwoDistinct(k: nat, start: nat, i: nat, j: nat)
    requires 1 <= i < j <= Pow2(k)
    ensures Probe(start, Pow2(k), i) != Probe(start, Pow2(k), j)
  {
    var n := Pow2(k);
    if Probe(start, n, i) == Probe(start, n, j) {
      TriangleGap(i, j);
      var q := SameRemainder(start + Triangle(i), start + Triangle(j), n);
      NoSmallProduct(k, j - i, j + i - 1, q);
    }
  }

  lemma OddNoMultiple(k: nat, x: nat, y: nat, q: nat)
    requires 0 < x < Pow2(k) && y % 2 == 1
    ensures x * y != Pow2(k) * q
  {
    if x * y == Pow2(k) * q {
      var r := OddFactor(k, x, y, q);
      SmallMultiple(x, Pow2(k), r);
    }
  }

  lemma Commutes(a: nat, b: nat)
    ensures a * b == b * a
  {
  }

  lemma OtherIsOdd(a: nat, b: nat)
    requires (a + b) % 2 == 1 && a % 2 == 0
    ensures b % 2 == 1
  {
  }

  lemma DoubledPower(k: nat, q: nat)
    ensures Pow2(k + 1) * q == 2 * (Pow2(k) * q)
  {
  }

  /** A product of two numbers of different parity below 2^(k+1) is no multiple of 2^(k+1). */
  lemma NoSmallProduct(k: nat, a: nat, b: nat, q: nat)
    requires 0 < a < Pow2(k + 1) && 0 < b < Pow2(k + 1) && (a + b) % 2 == 1
    ensures a * b != 2 * (Pow2(k) * q)
  {
    DoubledPower(k, q);
    if a % 2 == 1 {
      OddNoMultiple(k + 1, b, a, q);
      Commutes(a, b);
    } else {
      OtherIsOdd(a, b);
      OddNoMultiple(k + 1, a, b, q);
    }
  }

  /** Every positive number is a power of two times an odd number. */
  lemma {:induction false} OddPart(n: nat) returns (k: nat, m: nat)
    requires n > 0
    ensures n == Pow2(k) * m && m % 2 == 1
  {
    if n % 2 == 1 {
      k, m := 0, n;
    } else {
      k, m := OddPart(n / 2);
      assert n == 2 * (Pow2(k) * m) == Pow2(k + 1) * m;
      k := k + 1;
    }
  }

  lemma FactorCollision(n: nat, a: nat, b: nat, start: nat) returns (i: nat, j: nat)
    requires a * b == 2 * n && 2 <= a < b && (a + b) % 2 == 1
    ensures 1 <= i < j <= n && Probe(start, n, i) == Probe(start, n, j)
  {
    var h := (a + b) / 2;
    assert a + b == 2 * h + 1;
    i, j := h + 1 - a, h + 1;
    Grows(b - 1, a - 1);
    assert (b - 1) * (a - 1) == a * b - a - b + 1;
    TriangleGap(i, j);
    assert Triangle(j) == Triangle(i) + n;
    SamePeriod(start + Triangle(i), n);
  }

  lemma SamePeriod(x: nat, n: nat)
    requires n > 0
    ensures (x + n) % n == x % n
  {
    var q := x / n;
    assert x == n * q + x % n;
    assert n * (q + 1) == n * q + n;
    ModUnique(x + n, n, q + 1, x % n);
  }

  /** With any other number of servers two of the attempts go to the same server. */
  lemma OtherwiseCollision(n: nat, start: nat) returns (i: nat, j: nat)
    requires n > 0 && !IsPow2(n)
    ensures 1 <= i < j <= n && Probe(start, n, i) == Probe(start, n, j)
  {
    var k, m := OddPart(n);
    assert Pow2(k) * 1 == Pow2(k);
    var p := Pow2(k + 1);
    assert p * m == 2 * n == m * p;
    if p < m {
      i, j := FactorCollision(n, p, m, start);
    } else {
      i, j := FactorCollision(n, m, p, start);
    }
  }

  ghost predicate Reached(start: nat, n: nat, s: nat)
    requires n > 0
  {
    exists i :: 1 <= i <= n && Probe(start, n, i) == s
  }

  ghost predicate ReachesEvery(start: nat, n: nat)
    requires n > 0
  {
    forall s: nat :: s < n ==> Reached(start, n, s)
  }

  function Probed(start: nat, n: nat, upto: nat): set<nat>
    requires n > 0
  {
    if upto == 0 then {} else Probed(start, n, upto - 1) + {Probe(start, n, upto)}
  }

  lemma {:induction false} ProbedMembers(start: nat, n: nat, upto: nat, s: nat)
    requires n > 0
    ensures s in Probed(start, n, upto) <==> exists i :: 1 <= i <= upto && Probe(start, n, i) == s
  {
    if upto > 0 {
      ProbedMembers(start, n, upto - 1, s);
    }
  }

  function Below(n: nat): set<nat> {
    if n == 0 then {} else Below(n - 1) + {n - 1}
  }

  lemma {:induction false} BelowMembers(n: nat)
    ensures |Below(n)| == n && forall s: nat :: s in Below(n) <==> s < n
  {
    if n > 0 {
      BelowMembers(n - 1);
    }
  }

  lemma {:induction false} ProbedSize(start: nat, n: nat, upto: nat)
    requires n > 0
    ensures |Probed(start, n, upto)| <= upto
  {
    if upto > 0 {
      ProbedSize(start, n, upto - 1);
    }
  }

  lemma {:induction false} ProbedAll(k: nat, start: nat, upto: nat)
    requires upto <= Pow2(k)
    ensures |Probed(start, Pow2(k), upto)| == upto
  {
    if upto > 0 {
      ProbedAll(k, start, upto - 1);
      ProbedMembers(start, Pow2(k), upto - 1, Probe(start, Pow2(k), upto));
      forall i | 1 <= i < upto ensures Probe(start, Pow2(k), i) != Probe(start, Pow2(k), upto) {
        PowerOfTwoDistinct(k, start, i, upto);
      }
    }
  }

  lemma {:induction false} ProbedSmaller(start: nat, n: nat, upto: nat, i: nat, j: nat)
    requires n > 0 && 1 <= i < j <= upto && Probe(start, n, i) == Probe(start, n, j)
    ensures |Probed(start, n, upto)| < upto
  {
    ProbedSize(start, n, upto - 1);
    if j < upto {
      ProbedSmaller(start, n, upto - 1, i, j);
    } else {
      ProbedMembers(start, n, upto - 1, Probe(start, n, i));
    }
  }

  lemma SubsetOfSameSize<T>(a: set<T>, b: set<T>)
    requires a <= b && |a| == |b|
    ensures a == b
  {
    assert b == a + (b - a);
  }

  /** The attempts reach every server exactly when the number of servers is a power of two. */
  lemma ReachesEveryIffPowerOfTwo(start: nat, n: nat)
    requires n > 0
    ensures ReachesEvery(start, n) <==> IsPow2(n)
  {
    var probed := Probed(start, n, n);
    BelowMembers(n);
    forall s: nat ensures s in probed <==> Reached(start, n, s) {
      ProbedMembers(start, n, n, s);
    }
    assert probed <= Below(n);
    if IsPow2(n) {
      var k :| n == Pow2(k);
      ProbedAll(k, start, n);
      SubsetOfSameSize(probed, Below(n));
    } else {
      var i, j := OtherwiseCollision(n, start);
      ProbedSmaller(start, n, n, i, j);
      assert probed != Below(n);
    }
  }

  /** A single server is asked three times, several servers as often as there are servers. */
  function Attempts(n: nat): nat {
    if n == 1 then REQUEST_DOMAIN_RETRY_TIME else n
  }

  /** Every attempt failed, so the request does. */
  ghost predicate Fails(start: nat, n: nat, call: (nat, nat) -> Result<string, string>)
    requires n > 0
  {
    forall i :: 1 <= i <= Attempts(n) ==> call(i, Probe(start, n, i)).Err?
  }

  /** Some attempt went to server `s` and was refused. */
  ghost predicate Refused(start: nat, n: nat, call: (nat, nat) -> Result<string, string>, s: nat)
    requires n > 0
  {
    exists i :: 1 <= i <= Attempts(n) && Probe(start, n, i) == s && call(i, s).Err?
  }

  ghost predicate AllRefused(start: nat, n: nat, call: (nat, nat) -> Result<string, string>)
    requires n > 0
  {
    forall s: nat :: s < n ==> Refused(start, n, call, s)
  }

  lemma FailureOfPowerOfTwo(start: nat, n: nat, call: (nat, nat) -> Result<string, string>)
    requires n > 0 && IsPow2(n) && Fails(start, n, call)
    ensures AllRefused(start, n, call)
  {
    ReachesEveryIffPowerOfTwo(start, n);
    forall s: nat | s < n
      ensures Refused(start, n, call, s)
    {
      assert Reached(start, n, s);
      var i :| 1 <= i <= n && Probe(start, n, i) == s;
      assert call(i, s).Err?;
    }
  }

  /** Failure means that every server was contacted and refused, exactly when their number is a power of two. */
  lemma FailureMeansAllFailed(start: nat, n: nat)
    requires n > 0
    ensures (forall call :: Fails(start, n, call) ==> AllRefused(start, n, call)) <==> IsPow2(n)
  {
    if IsPow2(n) {
      forall call: (nat, nat) -> Result<string, string> | Fails(start, n, call)
        ensures AllRefused(start, n, call)
      {
        FailureOfPowerOfTwo(start, n, call);
      }
    }
    if forall call :: Fails(start, n, call) ==> AllRefused(start, n, call) {
      var down: (nat, nat) -> Result<string, string> := (i: nat, s: nat) => Err("");
      assert Fails(start, n, down);
      forall s: nat | s < n
        ensures Reached(start, n, s)
      {
        assert Refused(start, n, down, s);
        if n == 1 {
          assert Probe(start, n, 1) == s;
        }
      }
      ReachesEveryIffPowerOfTwo(start, n);
    }
  }

  // ---- Round robin -------------------------------------------------------------------------

  const MAX_INT32: int := 0x7fff_ffff

  function IncrementInt32(x: int): int {
    if x == MAX_INT32 then -MAX_INT32 - 1 else x + 1
  }

  /** Go's remainder takes the sign of the dividend. */
  function GoRemainder(a: int, n: nat): int
    requires n > 0
  {
    if a >= 0 then a % n else -(-a % n)
  }

  datatype Ticket = Server(index: nat) | EmptyList | IndexOutOfRange

  class NacosServer {
    var serverList: seq<string>
    var currentIndex: int

    ghost predicate Valid()
      reads this
    {
      -MAX_INT32 - 1 <= currentIndex <= MAX_INT32
    }

    method GetNextServer() returns (t: Ticket)
      requires Valid()
      modifies this`currentIndex
      ensures Valid()
      ensures serverList == [] <==> t == EmptyList
      ensures serverList == [] ==> currentIndex == old(currentIndex)
      ensures serverList != [] ==>
        && currentIndex == IncrementInt32(old(currentIndex))
        && t == TicketFor(|serverList|, currentIndex)
    {
      if |serverList| == 0 {
        return EmptyList;
      }
      currentIndex := IncrementInt32(currentIndex);
      var index := GoRemainder(currentIndex, |serverList|);
      if 0 <= index < |serverList| {
        t := Server(index);
      } else {
        t := IndexOutOfRange;
      }
    }
  }

  function TicketFor(n: nat, counter: int): Ticket
    requires n > 0
  {
    if counter >= 0 then Server(counter % n)
    else if -counter % n == 0 then Server(0)
    else IndexOutOfRange
  }

  /** The 32-bit counter after `i` increments. */
  function CounterAfter(counter: int, i: nat): int {
    if i == 0 then counter else IncrementInt32(CounterAfter(counter, i - 1))
  }

  /** The `i`-th ticket drawn after the counter stood at `counter`. */
  function Draw(n: nat, counter: int, i: nat): Ticket
    requires n > 0
  {
    TicketFor(n, CounterAfter(counter, i))
  }

  /** Successive calls on one server draw successive tickets. */
  method DrawTickets(server: NacosServer, k: nat) returns (tickets: seq<Ticket>)
    requires server.Valid() && server.serverList != []
    modifies server`currentIndex
    ensures server.Valid() && |tickets| == k
    ensures server.currentIndex == CounterAfter(old(server.currentIndex), k)
    ensures forall i :: 1 <= i <= k ==> tickets[i - 1] == Draw(|server.serverList|, old(server.currentIndex), i)
  {
    tickets := [];
    for i := 0 to k
      invariant server.Valid() && |tickets| == i
      invariant server.currentIndex == CounterAfter(old(server.currentIndex), i)
      invariant forall j :: 1 <= j <= i ==> tickets[j - 1] == Draw(|server.serverList|, old(server.currentIndex), j)
    {
      var t := server.GetNextServer();
      tickets := tickets + [t];
    }
  }

  lemma {:induction false} CounterAdds(counter: int, i: nat)
    requires counter + i <= MAX_INT32
    ensures CounterAfter(counter, i) == counter + i
  {
    if i > 0 {
      CounterAdds(counter, i - 1);
    }
  }

  lemma {:induction false} CounterWraps(counter: nat, i: nat)
    requires counter <= MAX_INT32 < counter + i <= 2 * MAX_INT32 + 1
    ensures CounterAfter(counter, i) == counter + i - 2 * (MAX_INT32 + 1)
    decreases i
  {
    if counter + i == MAX_INT32 + 1 {
      CounterAdds(counter, i - 1);
    } else {
      CounterWraps(counter, i - 1);
    }
  }

  lemma RemaindersDiffer(n: nat, counter: int, i: nat, j: nat)
    requires 1 <= i < j <= n && counter >= -1
    ensures (counter + i) % n != (counter + j) % n
  {
    if (counter + i) % n == (counter + j) % n {
      var r := SameRemainder(counter + i, counter + j, n);
      SmallMultiple(j - i, n, r);
    }
  }

  lemma NextHit(n: nat, x: nat, s: nat) returns (i: nat)
    requires s < n
    ensures i < n && (x + i) % n == s
  {
    var c, q := x % n, x / n;
    assert x == n * q + c;
    if s >= c {
      i := s - c;
      ModUnique(x + i, n, q, s);
    } else {
      i := n + s - c;
      assert n * (q + 1) == n * q + n;
      ModUnique(x + i, n, q + 1, s);
    }
  }

  /** The tickets 1..n drawn from `counter` hit server `s` exactly once. */
  ghost predicate HitOnce(n: nat, counter: int, s: nat)
    requires n > 0
  {
    exists i :: 1 <= i <= n && Draw(n, counter, i) == Server(s)
                && forall j :: 1 <= j <= n && Draw(n, counter, j) == Server(s) ==> j == i
  }

  /** Any n consecutive tickets hit each of n servers exactly once while the counter does not wrap. */
  lemma RotationHitsEachOnce(n: nat, counter: int, s: nat)
    requires s < n && -1 <= counter && counter + n <= MAX_INT32
    ensures HitOnce(n, counter, s)
  {
    var i := NextHit(n, counter + 1, s);
    i := i + 1;
    CounterAdds(counter, i);
    assert Draw(n, counter, i) == Server(s);
    forall j | 1 <= j <= n && Draw(n, counter, j) == Server(s)
      ensures j == i
    {
      CounterAdds(counter, j);
      if i < j {
        RemaindersDiffer(n, counter, i, j);
      } else if j < i {
        RemaindersDiffer(n, counter, j, i);
      }
    }
  }

  /** A rotation that ends with the first wrapped ticket, when n divides 2^31: that ticket is server 0. */
  lemma RotationEndsInWrap(n: nat, counter: nat, s: nat)
    requires 1 < n && s < n && counter + n == MAX_INT32 + 1 && (MAX_INT32 + 1) % n == 0
    ensures HitOnce(n, counter, s)
  {
    forall j: nat | 1 <= j <= n
      ensures Draw(n, counter, j) == Server(if j == n then 0 else j)
    {
      if j < n {
        CounterAdds(counter, j);
        var q := (MAX_INT32 + 1) / n;
        assert MAX_INT32 + 1 == n * q && counter == n * q - n == n * (q - 1);
        ModUnique(counter + j, n, q - 1, j);
      } else {
        CounterWraps(counter, n);
      }
    }
    var i := if s == 0 then n else s;
    assert Draw(n, counter, i) == Server(s);
  }

  /** A ticket drawn before the wrap never hits the server whose turn a wrapped ticket has. */
  lemma WrapMisses(n: nat, counter: nat, k: nat, s: nat)
    requires 1 <= k <= n <= MAX_INT32 && counter <= MAX_INT32 < counter + k
    requires s == (counter + k) % n && s != 0
    ensures !HitOnce(n, counter, s)
  {
    forall i: nat | 1 <= i <= n
      ensures Draw(n, counter, i) != Server(s)
    {
      if counter + i <= MAX_INT32 {
        CounterAdds(counter, i);
        RemaindersDiffer(n, counter, i, k);
      } else {
        CounterWraps(counter, i);
      }
    }
  }

  /** From a counter below -1 the non-negative tickets do not reach the last server. */
  lemma NegativeMisses(n: nat, counter: int)
    requires 1 < n <= MAX_INT32 && counter < -1
    ensures !HitOnce(n, counter, n - 1)
  {
    forall i: nat | 1 <= i <= n
      ensures Draw(n, counter, i) != Server(n - 1)
    {
      CounterAdds(counter, i);
      if counter + i >= 0 {
        ModUnique(counter + i, n, 0, counter + i);
      }
    }
  }

  /**
  For every 32-bit counter, exactly when n consecutive tickets hit each of n > 1 servers once: the
  first of them is not negative, and none is wrapped or only the last one and n divides 2^31.
   */
  lemma RotationExact(n: nat, counter: int)
    requires 1 < n <= MAX_INT32 && -MAX_INT32 - 1 <= counter <= MAX_INT32
    ensures (forall s: nat :: s < n ==> HitOnce(n, counter, s)) <==>
      && counter >= -1
      && (counter + n <= MAX_INT32 || (counter + n == MAX_INT32 + 1 && (MAX_INT32 + 1) % n == 0))
  {
    if counter < -1 {
      NegativeMisses(n, counter);
    } else if counter + n <= MAX_INT32 {
      forall s: nat | s < n ensures HitOnce(n, counter, s) { RotationHitsEachOnce(n, counter, s); }
    } else if counter + n == MAX_INT32 + 1 && (MAX_INT32 + 1) % n == 0 {
      forall s: nat | s < n ensures HitOnce(n, counter, s) { RotationEndsInWrap(n, counter, s); }
    } else {
      var k := MAX_INT32 + 1 - counter;
      if (counter + k) % n == 0 {
        RemaindersDiffer(n, counter, k, k + 1);
        k := k + 1;
      }
      WrapMisses(n, counter, k, (counter + k) % n);
    }
  }

  /** Once the counter wraps, one of the next two tickets of a list of n > 1 servers is out of range. */
  lemma WrappedCounterPanics(n: nat)
    requires n > 1
    ensures var wrapped := IncrementInt32(MAX_INT32);
            TicketFor(n, wrapped) == IndexOutOfRange || TicketFor(n, IncrementInt32(wrapped)) == IndexOutOfRange
  {
    var x: nat := MAX_INT32;
    if (x + 1) % n == 0 && x % n == 0 {
      var q := SameRemainder(x, x + 1, n);
      SmallMultiple(1, n, q);
    }
  }
}
