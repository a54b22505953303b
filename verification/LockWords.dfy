/** The packed lock word of LF.c: two 32-bit words hold the fields of RwLock.Word and a disabled flag.
    Bits 0-19 of the first word count waiting writers, bits 20-23 are flags, bits 24-31 and bits 0-11 of
    the second word count waiting readers, and the rest counts active readers. */
module LockWords {
  import opened Bits
  import opened Tally
  import RwLock

  datatype Words = Words(word1: nat, word2: nat)

  datatype Fields = Fields(w: RwLock.Word, disabled: bool)

  const WORD: nat := 0x1_0000_0000
  const LIMIT: nat := 0x10_0000

  predicate Fits(f: Fields) {
    f.w.exWaiting < LIMIT && f.w.shWaiting < LIMIT && f.w.shActive < LIMIT
  }

  function Pack(f: Fields): Words {
    Words(
      f.w.exWaiting + 0x10_0000 * Bit(f.w.exActive) + 0x20_0000 * Bit(f.w.exUpgrade) + 0x40_0000 * Bit(f.w.spin)
      + 0x80_0000 * Bit(f.disabled) + 0x100_0000 * (f.w.shWaiting % 0x100),
      f.w.shWaiting / 0x100 + 0x1000 * f.w.shActive)
  }

  // ---------------------------------------------------------------- the macros

  function GetExWaiting(s: Words): nat { And(s.word1, 0xfffff) }
  function TstExActive(s: Words): nat { And(s.word1, 0x100000) }
  function TstExUpgrade(s: Words): nat { And(s.word1, 0x200000) }
  function TstSpinWait(s: Words): nat { And(s.word1, 0x400000) }
  function TstDisabled(s: Words): nat { And(s.word1, 0x800000) }
  function GetShWaiting(s: Words): nat { And((s.word1 / 0x100_0000 + (s.word2 * 0x100) % WORD) % WORD, 0xfffff) }
  function TstShWaiting(s: Words): nat { Or(And(s.word1, 0xff000000), And(s.word2, 0xfff)) }
  function GetShActive(s: Words): nat { s.word2 / 0x1000 }
  function TstShActive(s: Words): nat { And(s.word2, 0xfffff000) }
  function TstExAll(s: Words): nat { And(s.word1, 0x1fffff) }
  function TstActiveAll(s: Words): nat { Or(And(s.word1, 0x100000), And(s.word2, 0xfffff000)) }
  function TstActiveAllOrExUpgrade(s: Words): nat { Or(And(s.word1, 0x300000), And(s.word2, 0xfffff000)) }
  function TstAllActiveOrExWaiting(s: Words): nat { Or(And(s.word1, 0x1fffff), And(s.word2, 0xfffff000)) }

  function IncExWaiting(s: Words): Words { s.(word1 := (s.word1 + 1) % WORD) }
  function DecExWaiting(s: Words): Words { s.(word1 := (s.word1 + WORD - 1) % WORD) }
  function SetExActive(s: Words): Words { s.(word1 := Or(s.word1, 0x100000)) }
  function ClrExActive(s: Words): Words { s.(word1 := And(s.word1, 0xffefffff)) }
  function SetExUpgrade(s: Words): Words { s.(word1 := Or(s.word1, 0x200000)) }
  function ClrExUpgrade(s: Words): Words { s.(word1 := And(s.word1, 0xffdfffff)) }
  function SetSpinWait(s: Words): Words { s.(word1 := Or(s.word1, 0x400000)) }
  function ClrSpinWait(s: Words): Words { s.(word1 := And(s.word1, 0xffbfffff)) }
  function SetDisabled(s: Words): Words { s.(word1 := Or(s.word1, 0x800000)) }
  function IncShActive(s: Words): Words { s.(word2 := (s.word2 + 0x1000) % WORD) }
  function DecShActive(s: Words): Words { s.(word2 := (s.word2 + WORD - 0x1000) % WORD) }

  /** Both words as one 64-bit number, and back. */
  function I64(s: Words): nat { s.word1 + WORD * s.word2 }
  function FromI64(x: nat): Words { Words(x % WORD, x / WORD % WORD) }
  function IncShWaiting(s: Words): Words { FromI64(I64(s) + 0x1000000) }
  function DecShWaiting(s: Words): Words { FromI64(I64(s) + WORD * WORD - 0x1000000) }

  /** The fields as the Get and Tst macros read them. */
  function Unpack(s: Words): Fields {
    Fields(
      RwLock.Word(
        GetExWaiting(s), TstExActive(s) != 0, TstExUpgrade(s) != 0, TstSpinWait(s) != 0, GetShWaiting(s),
          GetShActive(s)),
      TstDisabled(s) != 0)
  }

  // ---------------------------------------------------------------- reading

  lemma Powers()
    ensures Pow2(0) == 1 && Pow2(1) == 2 && Pow2(2) == 4 && Pow2(8) == 0x100 && Pow2(9) == 0x200 && Pow2(10) == 0x400
    ensures Pow2(11) == 0x800 && Pow2(12) == 0x1000 && Pow2(20) == 0x10_0000 && Pow2(21) == 0x20_0000
    ensures Pow2(22) == 0x40_0000 && Pow2(23) == 0x80_0000 && Pow2(24) == 0x100_0000
  {
  }

  /** Each flag test and the writers' counter read their own field of the first word. */
  lemma Word1Reads(f: Fields)
    requires Fits(f)
    ensures GetExWaiting(Pack(f)) == f.w.exWaiting
    ensures TstExActive(Pack(f)) != 0 <==> f.w.exActive
    ensures TstExUpgrade(Pack(f)) != 0 <==> f.w.exUpgrade
    ensures TstSpinWait(Pack(f)) != 0 <==> f.w.spin
    ensures TstDisabled(Pack(f)) != 0 <==> f.disabled
  {
    hide And, Or, Pow2;
    var x, e, a, u, p, d, l := Pack(f).word1,
      f.w.exWaiting, Bit(f.w.exActive), Bit(f.w.exUpgrade), Bit(f.w.spin), Bit(f.disabled), f.w.shWaiting % 0x100;
    Powers();
    FieldKept(0, 20, 1, 0x10_0000, 0, e, a + 2 * u + 4 * p + 8 * d + 16 * l, x, 0xfffff);
    FieldKept(20, 1, 0x10_0000, 2, e, a, u + 2 * p + 4 * d + 8 * l, x, 0x100000);
    FieldKept(21, 1, 0x20_0000, 2, e + 0x10_0000 * a, u, p + 2 * d + 4 * l, x, 0x200000);
    FieldKept(22, 1, 0x40_0000, 2, e + 0x10_0000 * a + 0x20_0000 * u, p, d + 2 * l, x, 0x400000);
    FieldKept(23, 1, 0x80_0000, 2, e + 0x10_0000 * a + 0x20_0000 * u + 0x40_0000 * p, d, l, x, 0x800000);
  }

  /** The waiting readers are put together from both words. */
  lemma ShWaitingReads(f: Fields)
    requires Fits(f)
    ensures GetShWaiting(Pack(f)) == f.w.shWaiting
  {
    hide And, Or, Pow2;
    var n, h, k := f.w.shWaiting, f.w.shWaiting / 0x100, f.w.shActive;
    Powers();
    assert Pack(f).word1 / 0x100_0000 == n % 0x100;
    HighShifted(h, k);
    FieldKept(0, 20, 1, 0x10_0000, 0, n, k % 0x1000, n + 0x10_0000 * (k % 0x1000), 0xfffff);
  }

  lemma HighShifted(h: nat, k: nat)
    requires h < 0x1000 && k < LIMIT
    ensures ((h + 0x1000 * k) * 0x100) % WORD == 0x100 * h + 0x10_0000 * (k % 0x1000)
  {
    var q, r := k / 0x1000, k % 0x1000;
    assert k == 0x1000 * q + r;
    Remainder((h + 0x1000 * k) * 0x100, q, 0x100 * h + 0x10_0000 * r);
  }

  lemma Remainder(n: nat, q: nat, r: nat)
    requires n == WORD * q + r && r < WORD
    ensures n % WORD == r
  {
  }

  /** The rest of the second word counts the active readers. */
  lemma ReadersRead(f: Fields)
    requires Fits(f)
    ensures GetShWaiting(Pack(f)) == f.w.shWaiting && GetShActive(Pack(f)) == f.w.shActive
    ensures TstShWaiting(Pack(f)) != 0 <==> f.w.shWaiting != 0
    ensures TstShActive(Pack(f)) == 0x1000 * f.w.shActive
  {
    hide And, Or, Pow2, GetShWaiting;
    var x, y, h, l, k := Pack(f).word1, Pack(f).word2, f.w.shWaiting / 0x100, f.w.shWaiting % 0x100, f.w.shActive;
    Powers();
    ShWaitingReads(f);
    FieldKept(24, 8, 0x100_0000, 0x100, x - 0x100_0000 * l, l, 0, x, 0xff000000);
    FieldKept(0, 12, 1, 0x1000, 0, h, k, y, 0xfff);
    FieldKept(12, 20, 0x1000, 0x10_0000, h, k, 0, y, 0xfffff000);
    OrTest(0x100_0000 * l, h);
  }

  /** Every combined test is the predicate of the fields that decides the lock's branches. */
  lemma TestsRead(f: Fields)
    requires Fits(f)
    ensures TstExAll(Pack(f)) != 0 <==> RwLock.ExAll(f.w)
    ensures TstActiveAll(Pack(f)) != 0 <==> RwLock.ActiveAll(f.w)
    ensures TstActiveAllOrExUpgrade(Pack(f)) != 0 <==> RwLock.ActiveAllOrExUpgrade(f.w)
    ensures TstAllActiveOrExWaiting(Pack(f)) != 0 <==> RwLock.AllActiveOrExWaiting(f.w)
  {
    hide And, Or, Pow2;
    var x, e, a, u, p, d, l := Pack(f).word1,
      f.w.exWaiting, Bit(f.w.exActive), Bit(f.w.exUpgrade), Bit(f.w.spin), Bit(f.disabled), f.w.shWaiting % 0x100;
    Powers();
    ReadersRead(f);
    FieldKept(0, 21, 1, 0x20_0000, 0, e + 0x10_0000 * a, u + 2 * p + 4 * d + 8 * l, x, 0x1fffff);
    FieldKept(20, 1, 0x10_0000, 2, e, a, u + 2 * p + 4 * d + 8 * l, x, 0x100000);
    FieldKept(20, 2, 0x10_0000, 4, e, a + 2 * u, p + 2 * d + 4 * l, x, 0x300000);
    OrTest(0x10_0000 * a, 0x1000 * f.w.shActive);
    OrTest(0x10_0000 * (a + 2 * u), 0x1000 * f.w.shActive);
    OrTest(e + 0x10_0000 * a, 0x1000 * f.w.shActive);
  }

  /** The macros read back what was packed. */
  lemma UnpackPack(f: Fields)
    requires Fits(f)
    ensures Unpack(Pack(f)) == f
  {
    hide And, Or, Pow2;
    Word1Reads(f);
    ReadersRead(f);
  }

  /** Any two words are the packing of some fields. */
  lemma Packed(s: Words) returns (f: Fields)
    requires s.word1 < WORD && s.word2 < WORD
    ensures Fits(f) && Pack(f) == s && Unpack(s) == f
  {
    hide And, Or, Pow2;
    var x, y, q, r := s.word1, s.word2, s.word1 / LIMIT, s.word1 / LIMIT / 2 / 2;
    f := Fields(
      RwLock.Word(x % LIMIT, q % 2 == 1, q / 2 % 2 == 1, r % 2 == 1, r / 2 / 2 + 0x100 * (y % 0x1000), y / 0x1000),
      r / 2 % 2 == 1);
    Quarters(q);
    Quarters(r);
    Bytes(r / 2 / 2, y % 0x1000);
    UnpackPack(f);
  }

  lemma Quarters(q: nat)
    ensures q == Bit(q % 2 == 1) + 2 * Bit(q / 2 % 2 == 1) + 4 * (q / 2 / 2)
  {
  }

  lemma Bytes(l: nat, h: nat)
    requires l < 0x100
    ensures (l + 0x100 * h) % 0x100 == l && (l + 0x100 * h) / 0x100 == h
  {
  }

  // ---------------------------------------------------------------- writing

  lemma SetWriter(f: Fields)
    requires Fits(f)
    ensures SetExActive(Pack(f)) == Pack(f.(w := f.w.(exActive := true)))
    ensures SetExUpgrade(Pack(f)) == Pack(f.(w := f.w.(exUpgrade := true)))
  {
    hide And, Or, Pow2;
    var e, a, u, p, d, l :=
      f.w.exWaiting, Bit(f.w.exActive), Bit(f.w.exUpgrade), Bit(f.w.spin), Bit(f.disabled), f.w.shWaiting % 0x100;
    Powers();
    BitSetAt(20, 0x10_0000, e, f.w.exActive, u + 2 * p + 4 * d + 8 * l);
    BitSetAt(21, 0x20_0000, e + 0x10_0000 * a, f.w.exUpgrade, p + 2 * d + 4 * l);
  }

  lemma SetFlags(f: Fields)
    requires Fits(f)
    ensures SetExActive(Pack(f)) == Pack(f.(w := f.w.(exActive := true)))
    ensures SetExUpgrade(Pack(f)) == Pack(f.(w := f.w.(exUpgrade := true)))
    ensures SetSpinWait(Pack(f)) == Pack(f.(w := f.w.(spin := true)))
    ensures SetDisabled(Pack(f)) == Pack(f.(disabled := true))
  {
    hide And, Or, Pow2, SetExActive, SetExUpgrade;
    SetWriter(f);
    var e, a, u, p, d, l :=
      f.w.exWaiting, Bit(f.w.exActive), Bit(f.w.exUpgrade), Bit(f.w.spin), Bit(f.disabled), f.w.shWaiting % 0x100;
    Powers();
    BitSetAt(22, 0x40_0000, e + 0x10_0000 * a + 0x20_0000 * u, f.w.spin, d + 2 * l);
    BitSetAt(23, 0x80_0000, e + 0x10_0000 * a + 0x20_0000 * u + 0x40_0000 * p, f.disabled, l);
  }

  lemma ClearActive(f: Fields)
    requires Fits(f)
    ensures ClrExActive(Pack(f)) == Pack(f.(w := f.w.(exActive := false)))
  {
    hide And, Or, Pow2;
    var e, u, p, d, l := f.w.exWaiting, Bit(f.w.exUpgrade), Bit(f.w.spin), Bit(f.disabled), f.w.shWaiting % 0x100;
    Powers();
    BitClearAt(20, 11, 0x10_0000, 0x800, e, f.w.exActive, u + 2 * p + 4 * d + 8 * l);
  }

  lemma ClearUpgrade(f: Fields)
    requires Fits(f)
    ensures ClrExUpgrade(Pack(f)) == Pack(f.(w := f.w.(exUpgrade := false)))
  {
    hide And, Or, Pow2;
    var e, a, p, d, l := f.w.exWaiting, Bit(f.w.exActive), Bit(f.w.spin), Bit(f.disabled), f.w.shWaiting % 0x100;
    Powers();
    BitClearAt(21, 10, 0x20_0000, 0x400, e + 0x10_0000 * a, f.w.exUpgrade, p + 2 * d + 4 * l);
  }

  lemma ClearFlags(f: Fields)
    requires Fits(f)
    ensures ClrExActive(Pack(f)) == Pack(f.(w := f.w.(exActive := false)))
    ensures ClrExUpgrade(Pack(f)) == Pack(f.(w := f.w.(exUpgrade := false)))
    ensures ClrSpinWait(Pack(f)) == Pack(f.(w := f.w.(spin := false)))
  {
    hide And, Or, Pow2, ClrExActive, ClrExUpgrade;
    ClearActive(f);
    ClearUpgrade(f);
    var e, a, u, d, l := f.w.exWaiting, Bit(f.w.exActive), Bit(f.w.exUpgrade), Bit(f.disabled), f.w.shWaiting % 0x100;
    Powers();
    BitClearAt(22, 9, 0x40_0000, 0x200, e + 0x10_0000 * a + 0x20_0000 * u, f.w.spin, d + 2 * l);
  }

  lemma PackBounds(f: Fields)
    requires Fits(f)
    ensures Pack(f).word1 < WORD && Pack(f).word2 < WORD
  {
  }

  lemma FromWords(a: nat, b: nat)
    requires a < WORD && b < WORD
    ensures FromI64(a + WORD * b) == Words(a, b) && FromI64(a + WORD * b + WORD * WORD) == Words(a, b)
  {
    assert (a + WORD * b + WORD * WORD) / WORD == b + WORD;
  }

  /** Counting a waiting reader carries from one word into the other and touches nothing else. */
  lemma CountReader(f: Fields)
    requires Fits(f) && f.w.shWaiting + 1 < LIMIT
    ensures IncShWaiting(Pack(f)) == Pack(f.(w := f.w.(shWaiting := f.w.shWaiting + 1)))
  {
    hide And, Or, Pow2, FromI64;
    var s, s' := Pack(f), Pack(f.(w := f.w.(shWaiting := f.w.shWaiting + 1)));
    PackBounds(f.(w := f.w.(shWaiting := f.w.shWaiting + 1)));
    Next(f.w.shWaiting);
    assert I64(s) + 0x1000000 == s'.word1 + WORD * s'.word2;
    FromWords(s'.word1, s'.word2);
  }

  lemma UncountReader(f: Fields)
    requires Fits(f) && f.w.shWaiting > 0
    ensures DecShWaiting(Pack(f)) == Pack(f.(w := f.w.(shWaiting := f.w.shWaiting - 1)))
  {
    hide And, Or, Pow2, FromI64;
    var s, s' := Pack(f), Pack(f.(w := f.w.(shWaiting := f.w.shWaiting - 1)));
    PackBounds(f.(w := f.w.(shWaiting := f.w.shWaiting - 1)));
    Next(f.w.shWaiting - 1);
    assert I64(s) - 0x1000000 == s'.word1 + WORD * s'.word2;
    FromWords(s'.word1, s'.word2);
  }

  lemma Next(n: nat)
    ensures (n + 1) % 0x100 + 0x100 * ((n + 1) / 0x100) == n % 0x100 + 0x100 * (n / 0x100) + 1
  {
  }

  lemma Wrap(x: nat, d: nat)
    requires x < WORD && d < WORD
    ensures x + d < WORD ==> (x + d) % WORD == x + d
    ensures d <= x ==> (x + WORD - d) % WORD == x - d
  {
    if d <= x { assert x + WORD - d == (x - d) + WORD; }
  }

  lemma CountWriter(f: Fields)
    requires Fits(f)
    ensures f.w.exWaiting + 1 < LIMIT ==> IncExWaiting(Pack(f)) == Pack(f.(w := f.w.(exWaiting := f.w.exWaiting + 1)))
    ensures f.w.exWaiting > 0 ==> DecExWaiting(Pack(f)) == Pack(f.(w := f.w.(exWaiting := f.w.exWaiting - 1)))
  {
    hide And, Or, Pow2;
    PackBounds(f);
    var w := f.w;
    var rest := Pack(f).word1 - w.exWaiting;
    assert Pack(f.(w := w.(exWaiting := w.exWaiting + 1))).word1 == rest + w.exWaiting + 1;
    if w.exWaiting > 0 { assert Pack(f.(w := w.(exWaiting := w.exWaiting - 1))).word1 == rest + w.exWaiting - 1; }
    if w.exWaiting + 1 < LIMIT { PackBounds(f.(w := w.(exWaiting := w.exWaiting + 1))); }
    hide Pack;
    Wrap(Pack(f).word1, 1);
  }

  lemma CountActive(f: Fields)
    requires Fits(f)
    ensures f.w.shActive + 1 < LIMIT ==> IncShActive(Pack(f)) == Pack(f.(w := f.w.(shActive := f.w.shActive + 1)))
    ensures f.w.shActive > 0 ==> DecShActive(Pack(f)) == Pack(f.(w := f.w.(shActive := f.w.shActive - 1)))
  {
    hide And, Or, Pow2;
    PackBounds(f);
    Wrap(Pack(f).word2, 0x1000);
  }

  // ---------------------------------------------------------------- what each macro does to the fields

  predicate Is32(s: Words) { s.word1 < WORD && s.word2 < WORD }

  /** On any two words, setting or clearing a flag changes that field and no other. */
  lemma FlagsExact(s: Words)
    requires Is32(s)
    ensures Unpack(SetExActive(s)) == Unpack(s).(w := Unpack(s).w.(exActive := true))
    ensures Unpack(ClrExActive(s)) == Unpack(s).(w := Unpack(s).w.(exActive := false))
    ensures Unpack(SetExUpgrade(s)) == Unpack(s).(w := Unpack(s).w.(exUpgrade := true))
    ensures Unpack(ClrExUpgrade(s)) == Unpack(s).(w := Unpack(s).w.(exUpgrade := false))
    ensures Unpack(SetSpinWait(s)) == Unpack(s).(w := Unpack(s).w.(spin := true))
    ensures Unpack(ClrSpinWait(s)) == Unpack(s).(w := Unpack(s).w.(spin := false))
    ensures Unpack(SetDisabled(s)) == Unpack(s).(disabled := true)
  {
    hide And, Or, Pack, Unpack;
    var f := Packed(s);
    SetFlags(f);
    ClearFlags(f);
    UnpackPack(f.(w := f.w.(exActive := true)));
    UnpackPack(f.(w := f.w.(exActive := false)));
    UnpackPack(f.(w := f.w.(exUpgrade := true)));
    UnpackPack(f.(w := f.w.(exUpgrade := false)));
    UnpackPack(f.(w := f.w.(spin := true)));
    UnpackPack(f.(w := f.w.(spin := false)));
    UnpackPack(f.(disabled := true));
  }

  /** On any two words, counting up adds one to its own field and leaves the others alone exactly when
      that field is below its largest value. */
  lemma CountsUpExact(s: Words)
    requires Is32(s)
    ensures Unpack(IncExWaiting(s)) == Unpack(s).(w := Unpack(s).w.(exWaiting := Unpack(s).w.exWaiting + 1)) <==>
            Unpack(s).w.exWaiting + 1 < LIMIT
    ensures Unpack(IncShWaiting(s)) == Unpack(s).(w := Unpack(s).w.(shWaiting := Unpack(s).w.shWaiting + 1)) <==>
            Unpack(s).w.shWaiting + 1 < LIMIT
    ensures Unpack(IncShActive(s)) == Unpack(s).(w := Unpack(s).w.(shActive := Unpack(s).w.shActive + 1)) <==>
            Unpack(s).w.shActive + 1 < LIMIT
  {
    hide And, Or, Pack, Unpack;
    var f := Packed(s);
    CountWriter(f);
    CountActive(f);
    if f.w.exWaiting + 1 < LIMIT { UnpackPack(f.(w := f.w.(exWaiting := f.w.exWaiting + 1))); }
    if f.w.shActive + 1 < LIMIT { UnpackPack(f.(w := f.w.(shActive := f.w.shActive + 1))); }
    if f.w.shWaiting + 1 < LIMIT { CountReader(f); UnpackPack(f.(w := f.w.(shWaiting := f.w.shWaiting + 1))); }
    var f1 := Packed(IncExWaiting(s));
    var f2 := Packed(IncShWaiting(s));
    var f3 := Packed(IncShActive(s));
  }

  /** Counting down takes one from its own field and leaves the others alone while the field is not zero. */
  lemma CountsDownExact(s: Words)
    requires Is32(s)
    ensures Unpack(s).w.exWaiting > 0 ==>
            Unpack(DecExWaiting(s)) == Unpack(s).(w := Unpack(s).w.(exWaiting := Unpack(s).w.exWaiting - 1))
    ensures Unpack(s).w.shWaiting > 0 ==>
            Unpack(DecShWaiting(s)) == Unpack(s).(w := Unpack(s).w.(shWaiting := Unpack(s).w.shWaiting - 1))
    ensures Unpack(s).w.shActive > 0 ==>
            Unpack(DecShActive(s)) == Unpack(s).(w := Unpack(s).w.(shActive := Unpack(s).w.shActive - 1))
  {
    hide And, Or, Pack, Unpack;
    var f := Packed(s);
    CountWriter(f);
    CountActive(f);
    if f.w.exWaiting > 0 { UnpackPack(f.(w := f.w.(exWaiting := f.w.exWaiting - 1))); }
    if f.w.shActive > 0 { UnpackPack(f.(w := f.w.(shActive := f.w.shActive - 1))); }
    if f.w.shWaiting > 0 { UncountReader(f); UnpackPack(f.(w := f.w.(shWaiting := f.w.shWaiting - 1))); }
  }

  /** On any two words, every Tst macro is nonzero exactly when its predicate holds of the fields. */
  lemma TestsExact(s: Words)
    requires Is32(s)
    ensures TstShWaiting(s) != 0 <==> Unpack(s).w.shWaiting != 0
    ensures TstShActive(s) != 0 <==> Unpack(s).w.shActive != 0
    ensures TstExAll(s) != 0 <==> RwLock.ExAll(Unpack(s).w)
    ensures TstActiveAll(s) != 0 <==> RwLock.ActiveAll(Unpack(s).w)
    ensures TstActiveAllOrExUpgrade(s) != 0 <==> RwLock.ActiveAllOrExUpgrade(Unpack(s).w)
    ensures TstAllActiveOrExWaiting(s) != 0 <==> RwLock.AllActiveOrExWaiting(Unpack(s).w)
  {
    hide And, Or, Pack, Unpack;
    var f := Packed(s);
    ReadersRead(f);
    TestsRead(f);
  }
}
