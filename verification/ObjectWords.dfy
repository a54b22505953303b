/** The packed state of a pool object of LF.c: two 32-bit words hold the fields of PoolLock.Word and a flag
    for objects allocated by the user.  The first word holds the active readers, the upgrade and writer
    flags and the waiting writers; the second the waiting readers, the spin and user flags and the index
    of the attached event. */
module ObjectWords {
  import opened Bits
  import opened Tally
  import opened LockWords
  import PoolLock

  datatype Object = Object(w: PoolLock.Word, user: bool)

  const TOP: nat := 0x8000

  predicate Held(f: Object) {
    f.w.shActive < TOP && f.w.exWaiting < TOP && f.w.shWaiting < TOP && f.w.event < TOP
  }

  /** Both words hold a counter, two flags and a number. */
  function Layout(c: nat, a: bool, b: bool, n: nat): nat { c + 0x8000 * Bit(a) + 0x10000 * Bit(b) + 0x20000 * n }

  function PackObject(f: Object): Words {
    Words(Layout(f.w.shActive, f.w.exUpgrade, f.w.exActive, f.w.exWaiting),
      Layout(f.w.shWaiting, f.w.spin, f.user, f.w.event))
  }

  // ---------------------------------------------------------------- the macros

  function ObjectGetShActive(s: Words): nat { And(s.word1, 0x7fff) }
  function ObjectTstShActive(s: Words): nat { And(s.word1, 0x7fff) }
  function ObjectTstExUpgrade(s: Words): nat { And(s.word1, 0x8000) }
  function ObjectTstExActive(s: Words): nat { And(s.word1, 0x10000) }
  function ObjectGetExWaiting(s: Words): nat { s.word1 / 0x20000 }
  function ObjectTstExWaiting(s: Words): nat { And(s.word1, 0xfffe0000) }
  function ObjectGetShWaiting(s: Words): nat { And(s.word2, 0x7fff) }
  function ObjectTstSpinWait(s: Words): nat { And(s.word2, 0x8000) }
  function ObjectGetUser(s: Words): nat { And(s.word2, 0x10000) }
  function ObjectGetEvent(s: Words): nat { s.word2 / 0x20000 }
  function ObjectTstEvent(s: Words): nat { And(s.word2, 0xfffe0000) }
  function ObjectTstExAll(s: Words): nat { And(s.word1, 0xffff0000) }
  function ObjectTstActiveAll(s: Words): nat { And(s.word1, 0x17fff) }
  function ObjectTstActiveAllOrExUpgrade(s: Words): nat { And(s.word1, 0x1ffff) }
  function ObjectTstAllActiveOrExWaiting(s: Words): nat { s.word1 }
  function ObjectTstAll(s: Words): nat { Or(s.word1, And(s.word2, 0xfffeffff)) }
  function ObjectTstWaitingAll(s: Words): nat { Or(And(s.word1, 0xfffe0000), And(s.word2, 0x7fff)) }

  function ObjectIncShActive(s: Words): Words { s.(word1 := (s.word1 + 1) % WORD) }
  function ObjectDecShActive(s: Words): Words { s.(word1 := (s.word1 + WORD - 1) % WORD) }
  function ObjectSetExUpgrade(s: Words): Words { s.(word1 := Or(s.word1, 0x8000)) }
  function ObjectClrExUpgrade(s: Words): Words { s.(word1 := And(s.word1, 0xffff7fff)) }
  function ObjectSetExActive(s: Words): Words { s.(word1 := Or(s.word1, 0x10000)) }
  function ObjectClrExActive(s: Words): Words { s.(word1 := And(s.word1, 0xfffeffff)) }
  function ObjectIncExWaiting(s: Words): Words { s.(word1 := (s.word1 + 0x20000) % WORD) }
  function ObjectDecExWaiting(s: Words): Words { s.(word1 := (s.word1 + WORD - 0x20000) % WORD) }
  function ObjectIncShWaiting(s: Words): Words { s.(word2 := (s.word2 + 1) % WORD) }
  function ObjectDecShWaiting(s: Words): Words { s.(word2 := (s.word2 + WORD - 1) % WORD) }
  function ObjectSetSpinWait(s: Words): Words { s.(word2 := Or(s.word2, 0x8000)) }
  function ObjectClrSpinWait(s: Words): Words { s.(word2 := And(s.word2, 0xffff7fff)) }
  function ObjectSetUser(s: Words): Words { s.(word2 := Or(s.word2, 0x10000)) }
  function ObjectSetEvent(s: Words, i: nat): Words { s.(word2 := (s.word2 + (i * 0x20000) % WORD) % WORD) }
  function ObjectClrEvent(s: Words): Words { s.(word2 := And(s.word2, 0x1ffff)) }

  /** The fields as the Get and Tst macros read them. */
  function UnpackObject(s: Words): Object {
    Object(
      PoolLock.Word(
        ObjectGetShActive(s), ObjectTstExUpgrade(s) != 0, ObjectTstExActive(s) != 0, ObjectGetExWaiting(s),
        ObjectGetShWaiting(s), ObjectTstSpinWait(s) != 0, ObjectGetEvent(s)),
      ObjectGetUser(s) != 0)
  }

  // ---------------------------------------------------------------- one word: count, two flags, number

  lemma Powers15()
    ensures Pow2(0) == 1 && Pow2(1) == 2 && Pow2(14) == 0x4000 && Pow2(15) == 0x8000 && Pow2(16) == 0x10000
      && Pow2(17) == 0x20000
  {
  }

  lemma LayoutReads(c: nat, a: bool, b: bool, n: nat)
    requires c < TOP && n < TOP
    ensures And(Layout(c, a, b, n), 0x7fff) == c && Layout(c, a, b, n) / 0x20000 == n && Layout(c, a, b, n) < WORD
    ensures And(Layout(c, a, b, n), 0x8000) == 0x8000 * Bit(a) && And(Layout(c, a, b, n), 0x10000) == 0x10000 * Bit(b)
    ensures And(Layout(c, a, b, n), 0xfffe0000) == 0x20000 * n && And(Layout(c, a, b, n), 0x1ffff) == Layout(c, a, b, 0)
    ensures And(Layout(c, a, b, n), 0xffff0000) == 0x10000 * Bit(b) + 0x20000 * n
  {
    hide And, Pow2;
    var x := Layout(c, a, b, n);
    Powers15();
    FieldKept(0, 15, 1, 0x8000, 0, c, Bit(a) + 2 * Bit(b) + 4 * n, x, 0x7fff);
    FieldKept(15, 1, 0x8000, 2, c, Bit(a), Bit(b) + 2 * n, x, 0x8000);
    FieldKept(16, 1, 0x10000, 2, c + 0x8000 * Bit(a), Bit(b), n, x, 0x10000);
    FieldKept(17, 15, 0x20000, 0x8000, Layout(c, a, b, 0), n, 0, x, 0xfffe0000);
    FieldKept(0, 17, 1, 0x20000, 0, Layout(c, a, b, 0), n, x, 0x1ffff);
    FieldKept(16, 16, 0x10000, 0x10000, c + 0x8000 * Bit(a), Bit(b) + 2 * n, 0, x, 0xffff0000);
  }

  /** The one mask with a hole keeps the count and the second flag. */
  lemma LayoutHole(c: nat, a: bool, b: bool, n: nat)
    requires c < TOP && n < TOP
    ensures And(Layout(c, a, b, n), 0x17fff) == c + 0x10000 * Bit(b)
  {
    hide And, Pow2;
    Powers15();
    var high := Bit(a) + 2 * Bit(b) + 4 * n;
    AndJoin(15, 0x8000, c, high, 0x7fff, 2, Layout(c, a, b, n), 0x17fff);
    AndOnes(15, c);
    FieldKept(1, 1, 2, 2, Bit(a), Bit(b), n, high, 2);
  }

  lemma LayoutWrites(c: nat, a: bool, b: bool, n: nat)
    requires c < TOP && n < TOP
    ensures Or(Layout(c, a, b, n), 0x8000) == Layout(c, true, b, n)
      && And(Layout(c, a, b, n), 0xffff7fff) == Layout(c, false, b, n)
    ensures Or(Layout(c, a, b, n), 0x10000) == Layout(c, a, true, n)
      && And(Layout(c, a, b, n), 0xfffeffff) == Layout(c, a, false, n)
  {
    hide And, Or, Pow2;
    Powers15();
    BitSetAt(15, 0x8000, c, a, Bit(b) + 2 * n);
    BitSetAt(16, 0x10000, c + 0x8000 * Bit(a), b, n);
    BitClearAt(15, 16, 0x8000, 0x10000, c, a, Bit(b) + 2 * n);
    BitClearAt(16, 15, 0x10000, 0x8000, c + 0x8000 * Bit(a), b, n);
  }

  lemma LayoutCounts(c: nat, a: bool, b: bool, n: nat)
    requires c < TOP && n < TOP
    ensures c + 1 < TOP ==> (Layout(c, a, b, n) + 1) % WORD == Layout(c + 1, a, b, n)
    ensures c > 0 ==> (Layout(c, a, b, n) + WORD - 1) % WORD == Layout(c - 1, a, b, n)
    ensures n + 1 < TOP ==> (Layout(c, a, b, n) + 0x20000) % WORD == Layout(c, a, b, n + 1)
    ensures n > 0 ==> (Layout(c, a, b, n) + WORD - 0x20000) % WORD == Layout(c, a, b, n - 1)
  {
    Wrap(Layout(c, a, b, n), 1);
    Wrap(Layout(c, a, b, n), 0x20000);
  }

  lemma LayoutZero(c: nat, a: bool, b: bool, n: nat)
    ensures Layout(c, a, b, n) == 0 <==> c == 0 && !a && !b && n == 0
  {
  }

  lemma LayoutOf(x: nat) returns (c: nat, a: bool, b: bool, n: nat)
    requires x < WORD
    ensures c < TOP && n < TOP && Layout(c, a, b, n) == x
  {
    var q := x / TOP;
    c, a, b, n := x % TOP, q % 2 == 1, q / 2 % 2 == 1, q / 2 / 2;
    Quarters(q);
  }

  // ---------------------------------------------------------------- reading and writing objects

  lemma UnpackPackObject(f: Object)
    requires Held(f)
    ensures UnpackObject(PackObject(f)) == f
  {
    hide And, Pow2;
    LayoutReads(f.w.shActive, f.w.exUpgrade, f.w.exActive, f.w.exWaiting);
    LayoutReads(f.w.shWaiting, f.w.spin, f.user, f.w.event);
  }

  /** Any two words are the packing of some object. */
  lemma PackedObject(s: Words) returns (f: Object)
    requires Is32(s)
    ensures Held(f) && PackObject(f) == s && UnpackObject(s) == f
  {
    hide And, Pow2;
    var c, a, b, n := LayoutOf(s.word1);
    var c', a', b', n' := LayoutOf(s.word2);
    f := Object(PoolLock.Word(c, a, b, n, c', a', n'), b');
    UnpackPackObject(f);
  }

  /** On any two words, every Tst macro is nonzero exactly when its predicate holds of the fields. */
  lemma ObjectTestsExact(s: Words)
    requires Is32(s)
    ensures ObjectTstExWaiting(s) != 0 <==> UnpackObject(s).w.exWaiting != 0
    ensures ObjectTstEvent(s) != 0 <==> UnpackObject(s).w.event != 0
    ensures ObjectTstExAll(s) != 0 <==> PoolLock.ExAll(UnpackObject(s).w)
    ensures ObjectTstActiveAll(s) != 0 <==> PoolLock.ActiveAll(UnpackObject(s).w)
    ensures ObjectTstActiveAllOrExUpgrade(s) != 0 <==>
      PoolLock.ActiveAll(UnpackObject(s).w) || UnpackObject(s).w.exUpgrade
    ensures ObjectTstWaitingAll(s) != 0 <==> PoolLock.WaitingAll(UnpackObject(s).w)
  {
    hide And, Or, Pow2, UnpackObject;
    var f := PackedObject(s);
    var w := f.w;
    LayoutReads(w.shActive, w.exUpgrade, w.exActive, w.exWaiting);
    LayoutReads(w.shWaiting, w.spin, f.user, w.event);
    LayoutHole(w.shActive, w.exUpgrade, w.exActive, w.exWaiting);
    OrTest(0x20000 * w.exWaiting, w.shWaiting);
  }

  /** The test for anything at all, the user flag aside, and the one for anything in the first word. */
  lemma ObjectTestAll(s: Words)
    requires Is32(s)
    ensures ObjectTstAll(s) != 0 <==> UnpackObject(s).w != PoolLock.Word(0, false, false, 0, 0, false, 0)
    ensures ObjectTstAllActiveOrExWaiting(s) != 0 <==>
            PoolLock.ActiveAll(UnpackObject(s).w) || UnpackObject(s).w.exWaiting != 0 || UnpackObject(s).w.exUpgrade
  {
    hide And, Or, Pow2, UnpackObject, Layout;
    var f := PackedObject(s);
    LayoutWrites(f.w.shWaiting, f.w.spin, f.user, f.w.event);
    LayoutZero(f.w.shActive, f.w.exUpgrade, f.w.exActive, f.w.exWaiting);
    LayoutZero(f.w.shWaiting, f.w.spin, false, f.w.event);
    OrTest(s.word1, Layout(f.w.shWaiting, f.w.spin, false, f.w.event));
  }

  /** On any two words, setting or clearing a flag changes that field and no other. */
  lemma ObjectFlagsExact(s: Words)
    requires Is32(s)
    ensures UnpackObject(ObjectSetExUpgrade(s)) == UnpackObject(s).(w := UnpackObject(s).w.(exUpgrade := true))
    ensures UnpackObject(ObjectClrExUpgrade(s)) == UnpackObject(s).(w := UnpackObject(s).w.(exUpgrade := false))
    ensures UnpackObject(ObjectSetExActive(s)) == UnpackObject(s).(w := UnpackObject(s).w.(exActive := true))
    ensures UnpackObject(ObjectClrExActive(s)) == UnpackObject(s).(w := UnpackObject(s).w.(exActive := false))
    ensures UnpackObject(ObjectSetSpinWait(s)) == UnpackObject(s).(w := UnpackObject(s).w.(spin := true))
    ensures UnpackObject(ObjectClrSpinWait(s)) == UnpackObject(s).(w := UnpackObject(s).w.(spin := false))
    ensures UnpackObject(ObjectSetUser(s)) == UnpackObject(s).(user := true)
  {
    hide And, Or, Pow2, UnpackObject;
    var f := PackedObject(s);
    LayoutWrites(f.w.shActive, f.w.exUpgrade, f.w.exActive, f.w.exWaiting);
    LayoutWrites(f.w.shWaiting, f.w.spin, f.user, f.w.event);
    UnpackPackObject(f.(w := f.w.(exUpgrade := true)));
    UnpackPackObject(f.(w := f.w.(exUpgrade := false)));
    UnpackPackObject(f.(w := f.w.(exActive := true)));
    UnpackPackObject(f.(w := f.w.(exActive := false)));
    UnpackPackObject(f.(w := f.w.(spin := true)));
    UnpackPackObject(f.(w := f.w.(spin := false)));
    UnpackPackObject(f.(user := true));
  }

  /** On any two words, counting up adds one to its own field and leaves the others alone exactly when
      that field is below its largest value. */
  lemma ObjectCountsUpExact(s: Words)
    requires Is32(s)
    ensures var f := UnpackObject(s);
      UnpackObject(ObjectIncShActive(s)) == f.(w := f.w.(shActive := f.w.shActive + 1)) <==> f.w.shActive + 1 < TOP
    ensures var f := UnpackObject(s);
      UnpackObject(ObjectIncExWaiting(s)) == f.(w := f.w.(exWaiting := f.w.exWaiting + 1)) <==> f.w.exWaiting + 1 < TOP
    ensures var f := UnpackObject(s);
      UnpackObject(ObjectIncShWaiting(s)) == f.(w := f.w.(shWaiting := f.w.shWaiting + 1)) <==> f.w.shWaiting + 1 < TOP
  {
    hide And, Or, Pow2, UnpackObject, ObjectIncShActive, ObjectIncExWaiting, ObjectIncShWaiting;
    CountUp1(s);
    CountUp2(s);
  }

  lemma CountUp1(s: Words)
    requires Is32(s)
    ensures var f := UnpackObject(s);
      UnpackObject(ObjectIncShActive(s)) == f.(w := f.w.(shActive := f.w.shActive + 1)) <==> f.w.shActive + 1 < TOP
    ensures var f := UnpackObject(s);
      UnpackObject(ObjectIncExWaiting(s)) == f.(w := f.w.(exWaiting := f.w.exWaiting + 1)) <==> f.w.exWaiting + 1 < TOP
  {
    hide And, Or, Pow2, UnpackObject, Layout;
    var f := PackedObject(s);
    LayoutCounts(f.w.shActive, f.w.exUpgrade, f.w.exActive, f.w.exWaiting);
    if f.w.shActive + 1 < TOP { UnpackPackObject(f.(w := f.w.(shActive := f.w.shActive + 1))); }
    if f.w.exWaiting + 1 < TOP { UnpackPackObject(f.(w := f.w.(exWaiting := f.w.exWaiting + 1))); }
    var f1 := PackedObject(ObjectIncShActive(s));
    var f2 := PackedObject(ObjectIncExWaiting(s));
  }

  lemma CountUp2(s: Words)
    requires Is32(s)
    ensures var f := UnpackObject(s);
      UnpackObject(ObjectIncShWaiting(s)) == f.(w := f.w.(shWaiting := f.w.shWaiting + 1)) <==> f.w.shWaiting + 1 < TOP
  {
    hide And, Or, Pow2, UnpackObject, Layout;
    var f := PackedObject(s);
    LayoutCounts(f.w.shWaiting, f.w.spin, f.user, f.w.event);
    if f.w.shWaiting + 1 < TOP { UnpackPackObject(f.(w := f.w.(shWaiting := f.w.shWaiting + 1))); }
    var f3 := PackedObject(ObjectIncShWaiting(s));
  }

  lemma ObjectCountsDownExact(s: Words)
    requires Is32(s)
    ensures UnpackObject(s).w.shActive > 0 ==>
            UnpackObject(ObjectDecShActive(s)) ==
              UnpackObject(s).(w := UnpackObject(s).w.(shActive := UnpackObject(s).w.shActive - 1))
    ensures UnpackObject(s).w.exWaiting > 0 ==>
            UnpackObject(ObjectDecExWaiting(s)) ==
              UnpackObject(s).(w := UnpackObject(s).w.(exWaiting := UnpackObject(s).w.exWaiting - 1))
    ensures UnpackObject(s).w.shWaiting > 0 ==>
            UnpackObject(ObjectDecShWaiting(s)) ==
              UnpackObject(s).(w := UnpackObject(s).w.(shWaiting := UnpackObject(s).w.shWaiting - 1))
  {
    hide And, Or, Pow2, UnpackObject, Layout;
    var f := PackedObject(s);
    LayoutCounts(f.w.shActive, f.w.exUpgrade, f.w.exActive, f.w.exWaiting);
    LayoutCounts(f.w.shWaiting, f.w.spin, f.user, f.w.event);
    if f.w.shActive > 0 { UnpackPackObject(f.(w := f.w.(shActive := f.w.shActive - 1))); }
    if f.w.exWaiting > 0 { UnpackPackObject(f.(w := f.w.(exWaiting := f.w.exWaiting - 1))); }
    if f.w.shWaiting > 0 { UnpackPackObject(f.(w := f.w.(shWaiting := f.w.shWaiting - 1))); }
  }

  /** An event is attached by adding its index, which is right exactly when none was attached; detaching
      it clears the index alone. */
  lemma EventExact(s: Words, i: nat)
    requires Is32(s) && i < TOP
    ensures UnpackObject(ObjectSetEvent(s, i)).w.event == i <==> UnpackObject(s).w.event == 0
    ensures UnpackObject(s).w.event == 0 ==>
      UnpackObject(ObjectSetEvent(s, i)) == UnpackObject(s).(w := UnpackObject(s).w.(event := i))
    ensures UnpackObject(ObjectClrEvent(s)) == UnpackObject(s).(w := UnpackObject(s).w.(event := 0))
  {
    hide And, Or, Pow2, UnpackObject, Layout;
    var f := PackedObject(s);
    var e := f.w.event;
    LayoutReads(f.w.shWaiting, f.w.spin, f.user, e);
    UnpackPackObject(f.(w := f.w.(event := 0)));
    LayoutAttach(f.w.shWaiting, f.w.spin, f.user, e, i);
    UnpackPackObject(f.(w := f.w.(event := if e + i < TOP then e + i else e + i - TOP)));
  }

  lemma LayoutAttach(c: nat, a: bool, b: bool, n: nat, i: nat)
    requires c < TOP && n < TOP && i < TOP
    ensures (Layout(c, a, b, n) + (i * 0x20000) % WORD) % WORD ==
      Layout(c, a, b, if n + i < TOP then n + i else n + i - TOP)
  {
    assert Layout(c, a, b, n) + i * 0x20000 == Layout(c, a, b, 0) + 0x20000 * (n + i);
    assert Layout(c, a, b, 0) < 0x20000;
  }
}
