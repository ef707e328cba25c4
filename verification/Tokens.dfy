/** The 64-bit tokens mcon attaches to its epoll registrations, and the instance ids
    that keep the tokens of different instances apart. */
module Tokens {
  import opened Types

  /** struct mcon_epoll_entry; the source is an enum, which C keeps in 32 bits. */
  datatype Entry = Entry(instance: bv16, generation: bv8, source: bv32, session: bv32, reserved: bv16)

  const SOURCE_UNKNOWN: bv32 := 0
  const SOURCE_SERVER_SOCKET: bv32 := 1
  const SOURCE_IO_URING: bv32 := 2
  const SOURCE_SESSION: bv32 := 3

  predicate ValidSource(source: bv32) { source <= SOURCE_SESSION }

  /** The fields fit the widths the token has for them. */
  predicate Fits(e: Entry) { e.source < 16 && e.session < 0x10_0000 }

  function Encode(e: Entry): bv64 {
    ((e.instance as bv64) << 48)
    | ((e.generation as bv64) << 40)
    | ((e.source as bv64) << 36)
    | ((e.session as bv64) << 16)
    | (e.reserved as bv64)
  }

  function Decode(data: bv64): Entry {
    Entry(((data >> 48) & 0xffff) as bv16,
          ((data >> 40) & 0xff) as bv8,
          ((data >> 36) & 0xf) as bv32,
          ((data >> 16) & 0xf_ffff) as bv32,
          (data & 0xffff) as bv16)
  }

  /** Decoding undoes encoding exactly for the entries that fit. */
  lemma DecodeEncode(e: Entry)
    ensures Decode(Encode(e)) == e <==> Fits(e)
  {
  }

  /** Which bits of the token hold which field. */
  lemma Layout(data: bv64)
    ensures Decode(data).instance as bv64 == data >> 48
    ensures Decode(data).generation as bv64 == (data >> 40) & 0xff
    ensures Decode(data).source as bv64 == (data >> 36) & 0xf
    ensures Decode(data).session as bv64 == (data >> 16) & 0xf_ffff
    ensures Decode(data).reserved as bv64 == data & 0xffff
  {
  }

  /** The tokens of the server socket, of the eventfd, and of the first session in its first incarnation. */
  lemma FixedTokens(instance: bv16)
    ensures Decode(((instance as bv64) << 48) | 0x1f_ffff_0000)
         == Entry(instance, 0, SOURCE_SERVER_SOCKET, 0xf_ffff, 0)
    ensures Decode(((instance as bv64) << 48) | 0x2f_ffff_0000) == Entry(instance, 0, SOURCE_IO_URING, 0xf_ffff, 0)
    ensures Decode(((instance as bv64) << 48) | 0x30_0000_0000) == Entry(instance, 0, SOURCE_SESSION, 0, 0)
  {
  }

  /** Every 64-bit word is the token of the entry it decodes to. */
  lemma EncodeDecode(data: bv64)
    ensures Encode(Decode(data)) == data
    ensures Fits(Decode(data))
  {
  }

  /** The token of a session's registration. */
  function SessionToken(instance: bv16, generation: bv8, session: bv32): bv64 {
    Encode(Entry(instance, generation, SOURCE_SESSION, session, 0))
  }

  lemma BelowMaximum(session: bv32)
    requires session as int <= MAX_SESSIONS
    ensures session < 0x10_0000
  {
  }

  lemma SessionTokenDecodes(instance: bv16, generation: bv8, session: bv32)
    requires session as int <= MAX_SESSIONS
    ensures var data := SessionToken(instance, generation, session);
      Owns(instance, data) && Decode(data) == Entry(instance, generation, SOURCE_SESSION, session, 0)
  {
    BelowMaximum(session);
    DecodeEncode(Entry(instance, generation, SOURCE_SESSION, session, 0));
  }

  /** mcon_owns_event. */
  predicate Owns(instance: bv16, data: bv64) {
    Decode(data).instance == instance && ValidSource(Decode(data).source)
  }

  /* Instance ids: the counter of mcon_create */

  function Increment(n: Uint16): Uint16 { if n == 0xffff then 0 else n + 1 }

  /** One successful create: the id it gets, and the counter it leaves. */
  function Create(counter: Uint16): (Uint16, Uint16) {
    if counter == 0 then (Increment(0), Increment(Increment(0))) else (counter, Increment(counter))
  }

  /** The counter before the k-th successful create. */
  function Counter(k: nat): Uint16 {
    if k == 0 then 1 else Create(Counter(k - 1)).1
  }

  function Id(k: nat): Uint16 { Create(Counter(k)).0 }

  lemma {:induction false} CounterIs(k: nat)
    ensures Counter(k) == if k > 0 && k % 0xffff == 0 then 0 else k % 0xffff + 1
  {
    if k > 0 { CounterIs(k - 1); }
  }

  /** Ids count from 1 to 65535 and start over; 0 is never given out. */
  lemma IdIs(k: nat)
    ensures Id(k) == k % 0xffff + 1
  {
    CounterIs(k);
  }

  /** Any 65535 consecutive creates get different ids. */
  lemma IdsAreDistinct(j: nat, k: nat)
    requires j < k < j + 0xffff
    ensures Id(j) != Id(k) && Id(j) != 0 && Id(k) != 0
  {
    IdIs(j);
    IdIs(k);
  }

  /** Exactly at a distance of a multiple of 65535 creates does an id come back. */
  lemma IdsRepeat(j: nat, k: nat)
    requires j <= k
    ensures Id(j) == Id(k) <==> (k - j) % 0xffff == 0
  {
    IdIs(j);
    IdIs(k);
  }

  lemma SameNumber(a: bv16, b: bv16)
    ensures a == b <==> a as int == b as int
  {
    assert (a as int) as bv16 == a;
    assert (b as int) as bv16 == b;
  }

  /** Instance k, with id `b`, owns a token that instance j, with id `a`, encoded exactly if the source
      is one of mcon's and the two are the same instance, while fewer than 65535 creates lie between. */
  lemma TokensAreTheirInstances(j: nat, k: nat, a: bv16, b: bv16, e: Entry)
    requires j <= k < j + 0xffff || k <= j < k + 0xffff
    requires a as int == Id(j) && b as int == Id(k)
    requires Fits(e) && e.instance == a
    ensures Owns(b, Encode(e)) <==> j == k && e.source <= 3
  {
    DecodeEncode(e);
    SameNumber(a, b);
    if j < k { IdsAreDistinct(j, k); } else if k < j { IdsAreDistinct(k, j); }
  }
}
