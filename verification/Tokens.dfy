/**
 Source tokens and the integer keys they are packed into (src/token.rs), and the
 factory that numbers the sub-sources of one event source (src/sys.rs).

 The widths of the three fields depend on the target's pointer width, so everything
 here is stated for an arbitrary `Width`. Shifts and masks are written as products,
 quotients and remainders by powers of two.
 */
module Tokens {
  import opened Wrappers

  datatype Width = W64 | W32 | W16

  /** 2^BITS_VERSION */
  function Versions(w: Width): nat {
    match w
    case W64 => 0x1_0000
    case W32 => 0x100
    case W16 => 0x10
  }

  /** 2^BITS_SUBID */
  function SubIds(w: Width): nat {
    match w
    case W64 => 0x1_0000
    case W32 => 0x100
    case W16 => 0x10
  }

  /** The number of ids that survive packing: what is left of the word above version and sub-id. */
  function Ids(w: Width): nat {
    match w
    case W64 => 0x1_0000_0000
    case W32 => 0x1_0000
    case W16 => 0x100
  }

  /** The number of values of `usize`. */
  function Words(w: Width): nat {
    match w
    case W64 => 0x1_0000_0000_0000_0000
    case W32 => 0x1_0000_0000
    case W16 => 0x1_0000
  }

  const U32_COUNT: nat := 0x1_0000_0000

  datatype TokenInner = TokenInner(id: nat, version: nat, subId: nat)

  predicate WellFormed(w: Width, t: TokenInner) {
    t.id < U32_COUNT && t.version < Versions(w) && t.subId < SubIds(w)
  }

  predicate SameSource(a: TokenInner, b: TokenInner) {
    a.id == b.id && a.version == b.version
  }

  function IncrementVersion(w: Width, t: TokenInner): TokenInner {
    TokenInner(t.id, (t.version + 1) % Versions(w), 0)
  }

  /** `None` is the panic on running out of sub-ids. */
  function IncrementSubId(w: Width, t: TokenInner): Option<TokenInner> {
    if t.subId + 1 < SubIds(w) then Some(t.(subId := t.subId + 1)) else None
  }

  function ForgetSubId(t: TokenInner): TokenInner {
    t.(subId := 0)
  }

  /** The shift of the id drops the bits that do not fit in the word. */
  function Pack(w: Width, t: TokenInner): nat {
    (t.id * (Versions(w) * SubIds(w))) % Words(w) + t.version * SubIds(w) + t.subId
  }

  function Unpack(w: Width, value: nat): TokenInner {
    TokenInner(value / (Versions(w) * SubIds(w)), value / SubIds(w) % Versions(w), value % SubIds(w))
  }

  /** Reading back the low digit of a two-digit number in base `b`. */
  lemma Digits(high: nat, low: nat, b: nat)
    requires low < b
    ensures (high * b + low) / b == high && (high * b + low) % b == low
  {
    var x := high * b + low;
    assert x == (x / b) * b + x % b;
    var q := x / b - high;
    assert q * b == low - x % b;
    assert q >= 1 ==> q * b >= b;
    assert q <= -1 ==> q * b <= 0 - b;
  }

  lemma WidthsFit(w: Width)
    ensures Words(w) == Ids(w) * (Versions(w) * SubIds(w))
    ensures Ids(w) > 0 && Ids(w) <= U32_COUNT
  {
  }

  /** What the shift keeps of the id: its residue modulo the number of ids that fit. */
  lemma ShiftedId(w: Width, id: nat)
    ensures (id * (Versions(w) * SubIds(w))) % Words(w) == (id % Ids(w)) * (Versions(w) * SubIds(w))
  {
  }

  /** Unpacking undoes packing exactly when the id fits in its field. */
  lemma PackThenUnpack(w: Width, t: TokenInner)
    requires WellFormed(w, t)
    ensures Pack(w, t) < Words(w)
    ensures Unpack(w, Pack(w, t)) == t.(id := t.id % Ids(w))
    ensures Unpack(w, Pack(w, t)) == t <==> t.id < Ids(w)
  {
    WidthsFit(w);
    ShiftedId(w, t.id);
    var v, s, kept := Versions(w), SubIds(w), t.id % Ids(w);
    var value := Pack(w, t);
    assert value == (kept * v + t.version) * s + t.subId by {
      assert kept * (v * s) == (kept * v) * s;
    }
    Digits(kept * v + t.version, t.subId, s);
    Digits(kept, t.version, v);
    assert t.version * s + t.subId < v * s by {
      assert (t.version + 1) * s <= v * s;
    }
    assert value == kept * (v * s) + (t.version * s + t.subId);
    Digits(kept, t.version * s + t.subId, v * s);
    assert (kept + 1) * (v * s) <= Ids(w) * (v * s);
  }

  /** Where a key holds what: the sub-id in the lowest bits, the version above it, the id above both. */
  lemma KeyLayout(w: Width, t: TokenInner)
    requires WellFormed(w, t)
    ensures Pack(w, t) % SubIds(w) == t.subId
    ensures Pack(w, t) / SubIds(w) % Versions(w) == t.version
    ensures Pack(w, t) / (Versions(w) * SubIds(w)) == t.id % Ids(w)
  {
    PackThenUnpack(w, t);
  }

  /** Every word is the key of a token, so packing is a bijection on the tokens whose id fits. */
  lemma UnpackThenPack(w: Width, value: nat)
    requires value < Words(w)
    ensures WellFormed(w, Unpack(w, value)) && Unpack(w, value).id < Ids(w)
    ensures Pack(w, Unpack(w, value)) == value
  {
    WidthsFit(w);
    var v, s := Versions(w), SubIds(w);
    var upper := value / s;
    var id := upper / v;
    assert value == (id * v + upper % v) * s + value % s;
    assert value == id * (v * s) + ((upper % v) * s + value % s) by {
      assert (id * v) * s == id * (v * s);
    }
    assert (upper % v) * s + value % s < v * s by {
      assert (upper % v + 1) * s <= v * s;
    }
    Digits(id, (upper % v) * s + value % s, v * s);
    assert id >= Ids(w) ==> id * (v * s) >= Ids(w) * (v * s);
    ShiftedId(w, id);
    assert id % Ids(w) == id;
  }

  /** Repeated reuse of a slot: the version after `n` increments. */
  function IncrementedBy(w: Width, t: TokenInner, n: nat): TokenInner {
    if n == 0 then t else IncrementVersion(w, IncrementedBy(w, t, n - 1))
  }

  /** A token is confused with a later one of its slot exactly after a whole cycle of versions. */
  lemma {:induction false} VersionCycle(w: Width, t: TokenInner, n: nat)
    requires WellFormed(w, t)
    ensures IncrementedBy(w, t, n).version == (t.version + n) % Versions(w)
    ensures SameSource(t, IncrementedBy(w, t, n)) <==> n % Versions(w) == 0
  {
    if n > 0 {
      VersionCycle(w, t, n - 1);
    }
    SameId(w, t, n);
    var v := Versions(w);
    if n > 0 {
      AddModulo(t.version + (n - 1), 1, v);
    }
    CycleBack(t.version, n, v);
  }

  lemma AddModulo(a: nat, b: nat, m: nat)
    requires m > 0
    ensures (a % m + b) % m == (a + b) % m
  {
    var q := a / m;
    var r := (a % m + b) % m;
    assert a + b == q * m + (a % m + b) == (q + (a % m + b) / m) * m + r;
    Digits(q + (a % m + b) / m, r, m);
  }

  /** Adding `n` comes back to the same residue exactly when `n` is a multiple of the modulus. */
  lemma CycleBack(a: nat, n: nat, m: nat)
    requires a < m
    ensures (a + n) % m == a <==> n % m == 0
  {
    AddModulo(n, a, m);
    var r := n % m;
    if r + a >= m {
      Digits(1, r + a - m, m);
    } else {
      Digits(0, r + a, m);
    }
  }

  lemma SameId(w: Width, t: TokenInner, n: nat)
    ensures IncrementedBy(w, t, n).id == t.id
  {
  }

  /** The tokens of `n` successive calls to a factory, or `None` when one of the calls panics. */
  function Issue(w: Width, next: TokenInner, n: nat): (issued: Option<seq<TokenInner>>)
    ensures issued.Some? ==> |issued.value| == n
    decreases n
  {
    if n == 0 then Some([])
    else
      match IncrementSubId(w, next)
      case None => None
      case Some(following) =>
        match Issue(w, following, n - 1)
        case None => None
        case Some(rest) => Some([next] + rest)
  }

  /** A factory answers all of `n` calls exactly when they are fewer than 2^BITS_SUBID, with consecutive sub-ids. */
  lemma {:induction false} FactoryIssues(w: Width, next: TokenInner, n: nat)
    requires next.subId < SubIds(w)
    ensures Issue(w, next, n).Some? <==> next.subId + n < SubIds(w)
    ensures Issue(w, next, n).Some? ==>
              forall k :: 0 <= k < n ==> Issue(w, next, n).value[k] == next.(subId := next.subId + k)
    decreases n
  {
    if n > 0 && IncrementSubId(w, next).Some? {
      FactoryIssues(w, IncrementSubId(w, next).value, n - 1);
    }
  }

  /**
   Two sub-sources share a poller key exactly when their ids agree in the bits that fit the
   key, their versions agree, and they are the same in number: so never, for ids that fit.
   Where ids that do not fit are given out, the keys of different slots collide.
   */
  lemma PollerKeysUnique(w: Width, a: TokenInner, b: TokenInner, n: nat, m: nat, i: nat, j: nat)
    requires WellFormed(w, a) && WellFormed(w, b) && a.subId == 0 && b.subId == 0
    requires Issue(w, a, n).Some? && Issue(w, b, m).Some?
    requires i < n && j < m
    ensures Pack(w, Issue(w, a, n).value[i]) == Pack(w, Issue(w, b, m).value[j])
            <==> a.id % Ids(w) == b.id % Ids(w) && a.version == b.version && i == j
    ensures a.id < Ids(w) && b.id < Ids(w) ==>
              (Pack(w, Issue(w, a, n).value[i]) == Pack(w, Issue(w, b, m).value[j]) <==> SameSource(a, b) && i == j)
  {
    FactoryIssues(w, a, n);
    FactoryIssues(w, b, m);
    var x, y := Issue(w, a, n).value[i], Issue(w, b, m).value[j];
    PackThenUnpack(w, x);
    PackThenUnpack(w, y);
    SamePackIff(w, x, y);
  }

  lemma SamePackIff(w: Width, x: TokenInner, y: TokenInner)
    requires WellFormed(w, x) && WellFormed(w, y)
    ensures Pack(w, x) == Pack(w, y) <==> x.(id := x.id % Ids(w)) == y.(id := y.id % Ids(w))
  {
    PackThenUnpack(w, x);
    PackThenUnpack(w, y);
    ShiftedId(w, x.id);
    ShiftedId(w, y.id);
  }

  class TokenFactory {
    const w: Width
    var nextToken: TokenInner
    /** The token of the source that the factory was made for. */
    ghost const made: TokenInner

    /** Tokens handed out so far differ from the source's own in the sub-id only. */
    ghost predicate Valid()
      reads this
    {
      nextToken.subId < SubIds(w) && SameSource(nextToken, made)
    }

    constructor (w: Width, token: TokenInner)
      ensures Valid() && made == token
      ensures this.w == w && nextToken == ForgetSubId(token)
    {
      this.w := w;
      nextToken := ForgetSubId(token);
      made := token;
    }

    /** The registration token does not depend on what has been handed out. */
    method RegistrationToken() returns (t: TokenInner)
      requires Valid()
      ensures t == ForgetSubId(made)
    {
      t := ForgetSubId(nextToken);
    }

    /** Hands out the next token; `None` is the panic, before which nothing is handed out. */
    method Token() returns (t: Option<TokenInner>)
      requires Valid()
      modifies this
      ensures Valid()
      ensures t.None? <==> Issue(w, old(nextToken), 1).None?
      ensures t.None? ==> nextToken == old(nextToken)
      ensures t.Some? ==> t.value == old(nextToken) && nextToken == t.value.(subId := t.value.subId + 1)
    {
      var token := nextToken;
      match IncrementSubId(w, token)
      case None =>
        t := None;
      case Some(following) =>
        nextToken := following;
        t := Some(token);
        assert Issue(w, following, 0).Some?;
    }
  }
}
