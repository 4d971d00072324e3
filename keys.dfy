/**
 * Identity keys. Every key is an immutable value with a canonical `value`
 * string built from its type name and its components; keys are compared,
 * and collections are indexed, by that string alone.
 */
module Keys {
  import opened Wrappers
  import opened Unsigned
  import Guards

  /** A warp (namespace) identity: id and version, both positive. */
  datatype WarpKey = WarpKey(warpId: nat, warpVersion: nat)

  /** A class within a warp; the same shape serves data, service and message classes. */
  datatype ClassKey = ClassKey(warpKey: WarpKey, classId: int)

  /** A Data entity: its data class and its primary key. */
  datatype DataKey = DataKey(classKey: ClassKey, primaryKey: string)

  /** A Service instance: its service class and its primary key. */
  datatype ServiceKey = ServiceKey(classKey: ClassKey, primaryKey: string)

  /** The source a message is raised on: a Data or a Service. */
  datatype SourceKey = DataSource(dataKey: DataKey) | ServiceSource(serviceKey: ServiceKey)

  /** A message class raised on one source. */
  datatype MessageInstanceKey = MessageInstanceKey(messageClassKey: ClassKey, sourceKey: SourceKey)

  /** Which of the three class-key classes a ClassKey stands for. */
  datatype ClassKind = DataClass | ServiceClass | MessageClass

  /** The two kinds of warp reference on the wire. */
  datatype WarpReferenceKind = DataReferenceKind | ServiceReferenceKind

  // ---------------------------------------------------------------------
  // Constructors and their validation.

  /** new WarpKey(id, version): both must be present and positive. */
  function NewWarpKey(warpId: Option<Unsigned>, warpVersion: Option<Unsigned>): (r: Result<WarpKey>)
    ensures r.Ok? <==> warpId.Some? && warpId.value.value > 0 && warpVersion.Some? && warpVersion.value.value > 0
    ensures r.Ok? ==> r.value == WarpKey(warpId.value.value, warpVersion.value.value)
  {
    var g1 := Guards.RequiresPositiveUnsigned("warpId", warpId);
    var g2 := Guards.RequiresPositiveUnsigned("warpVersion", warpVersion);
    if g1.Fail? then Err(g1.error)
    else if g2.Fail? then Err(g2.error)
    else Ok(WarpKey(warpId.value.value, warpVersion.value.value))
  }

  /** new DataClassKey / ServiceClassKey / MessageClassKey: the class id must be truthy, so 0 is refused. */
  function NewClassKey(warpKey: WarpKey, classId: int): (r: Result<ClassKey>)
    ensures r.Ok? <==> classId != 0
    ensures r.Ok? ==> r.value.warpKey == warpKey && r.value.classId == classId
  {
    var g := Guards.TruthyNumber("classId", classId);
    if g.Fail? then Err(g.error) else Ok(ClassKey(warpKey, classId))
  }

  /** new DataKey: the primary key must be non-empty. */
  function NewDataKey(classKey: ClassKey, primaryKey: string): (r: Result<DataKey>)
    ensures r.Ok? <==> primaryKey != ""
    ensures r.Ok? ==> r.value.classKey == classKey && r.value.primaryKey == primaryKey
  {
    var g := Guards.TruthyString("primaryKey", primaryKey);
    if g.Fail? then Err(g.error) else Ok(DataKey(classKey, primaryKey))
  }

  /** new ServiceKey: the primary key must be non-empty. */
  function NewServiceKey(classKey: ClassKey, primaryKey: string): (r: Result<ServiceKey>)
    ensures r.Ok? <==> primaryKey != ""
    ensures r.Ok? ==> r.value.classKey == classKey && r.value.primaryKey == primaryKey
  {
    var g := Guards.TruthyString("primaryKey", primaryKey);
    if g.Fail? then Err(g.error) else Ok(ServiceKey(classKey, primaryKey))
  }

  /** getSourceWarpReferenceUnionProto: a data reference exactly when the source is a DataKey. */
  function SourceReferenceKind(k: MessageInstanceKey): (r: WarpReferenceKind)
    ensures r == DataReferenceKind <==> k.sourceKey.DataSource?
  {
    if k.sourceKey.DataSource? then DataReferenceKind else ServiceReferenceKind
  }

  // ---------------------------------------------------------------------
  // Canonical value strings.

  /** The three class-key classes share one shape and differ only in their type name. */
  function ClassKindName(kind: ClassKind): string
  {
    match kind
    case DataClass => "DataClassKey"
    case ServiceClass => "ServiceClassKey"
    case MessageClass => "MessageClassKey"
  }

  /** Any key, so that one function spells out every `value` string. */
  datatype AnyKey =
    | WarpOf(warp: WarpKey)
    | ClassOf(kind: ClassKind, cls: ClassKey)
    | DataOf(data: DataKey)
    | ServiceOf(service: ServiceKey)
    | SourceOf(source: SourceKey)
    | InstanceOf(instance: MessageInstanceKey)

  /** How many key layers a key's text nests. */
  function Depth(k: AnyKey): nat
  {
    match k
    case WarpOf(_) => 0
    case ClassOf(_, _) => 1
    case DataOf(_) => 2
    case ServiceOf(_) => 2
    case SourceOf(_) => 3
    case InstanceOf(_) => 4
  }

  /**
   * The `value` getter of every key class: the type name, then the
   * components, the inner keys by their own values.
   */
  function KeyText(k: AnyKey): string
    decreases Depth(k)
  {
    match k
    case WarpOf(w) => "WarpKey-" + Decimal(w.warpId) + "@" + Decimal(w.warpVersion)
    case ClassOf(kind, c) => ClassKindName(kind) + "-" + KeyText(WarpOf(c.warpKey)) + "-" + IntText(c.classId)
    case DataOf(d) => "DataKey-" + KeyText(ClassOf(DataClass, d.classKey)) + "-" + d.primaryKey
    case ServiceOf(v) => "ServiceKey-" + KeyText(ClassOf(ServiceClass, v.classKey)) + "-" + v.primaryKey
    case SourceOf(src) =>
      (match src
       case DataSource(d) => KeyText(DataOf(d))
       case ServiceSource(v) => KeyText(ServiceOf(v)))
    case InstanceOf(m) =>
      "MessageInstanceKey-" + KeyText(ClassOf(MessageClass, m.messageClassKey)) + "-" + KeyText(SourceOf(m.sourceKey))
  }

  function WarpKeyValue(k: WarpKey): string
  {
    KeyText(WarpOf(k))
  }

  function ClassKeyValue(kind: ClassKind, k: ClassKey): string
  {
    KeyText(ClassOf(kind, k))
  }

  function DataKeyValue(k: DataKey): string
  {
    KeyText(DataOf(k))
  }

  function ServiceKeyValue(k: ServiceKey): string
  {
    KeyText(ServiceOf(k))
  }

  function SourceKeyValue(k: SourceKey): string
  {
    KeyText(SourceOf(k))
  }

  function MessageInstanceKeyValue(k: MessageInstanceKey): string
  {
    KeyText(InstanceOf(k))
  }

  /** Each value spelled out one layer deep, in terms of the inner keys' values. */
  lemma ClassKeyValueSpelled(kind: ClassKind, k: ClassKey)
    ensures ClassKeyValue(kind, k) == ClassKindName(kind) + "-" + WarpKeyValue(k.warpKey) + "-" + IntText(k.classId)
  {
  }

  lemma DataKeyValueSpelled(k: DataKey)
    ensures DataKeyValue(k) == "DataKey-" + ClassKeyValue(DataClass, k.classKey) + "-" + k.primaryKey
  {
  }

  lemma ServiceKeyValueSpelled(k: ServiceKey)
    ensures ServiceKeyValue(k) == "ServiceKey-" + ClassKeyValue(ServiceClass, k.classKey) + "-" + k.primaryKey
  {
  }

  lemma SourceKeyValueSpelled(k: SourceKey)
    ensures SourceKeyValue(k) == if k.DataSource? then DataKeyValue(k.dataKey) else ServiceKeyValue(k.serviceKey)
  {
  }

  lemma MessageInstanceKeyValueSpelled(k: MessageInstanceKey)
    ensures MessageInstanceKeyValue(k) ==
      "MessageInstanceKey-" + ClassKeyValue(MessageClass, k.messageClassKey) + "-" + SourceKeyValue(k.sourceKey)
  {
  }

  // ---------------------------------------------------------------------
  // The value strings are injective, so comparing or indexing by the
  // string is the same as comparing or indexing by the key.

  /** Splitting at the first occurrence of a separator that the heads do not contain. */
  lemma SplitAtSeparator(a: string, x: string, b: string, y: string, c: char)
    requires forall i :: 0 <= i < |a| ==> a[i] != c
    requires forall i :: 0 <= i < |b| ==> b[i] != c
    requires a + [c] + x == b + [c] + y
    ensures a == b && x == y
  {
    var s := a + [c] + x;
    if |a| < |b| {
      SeparatorAt(a, c, x);
      SeparatorAt(b, c, y);
      assert false;
    } else if |b| < |a| {
      SeparatorAt(a, c, x);
      SeparatorAt(b, c, y);
      assert false;
    }
    assert a == s[..|a|] == b;
    assert x == s[|a| + 1..] == y;
  }

  lemma SeparatorAt(a: string, c: char, x: string)
    ensures (a + [c] + x)[|a|] == c
    ensures forall k :: 0 <= k < |a| ==> (a + [c] + x)[k] == a[k]
  {
  }

  lemma DropPrefix(p: string, x: string, y: string)
    requires p + x == p + y
    ensures x == y
  {
    assert x == (p + x)[|p|..];
    assert y == (p + y)[|p|..];
  }

  lemma Regroup5(a: string, b: string, c: string, d: string, e: string)
    ensures a + b + c + d + e == a + b + (c + d + e)
  {
  }

  lemma Regroup3(a: string, b: string, c: string)
    ensures a + b + c == a + (b + c)
  {
  }

  lemma DigitsLackSeparator(n: nat, c: char)
    requires !IsDigit(c)
    ensures forall i :: 0 <= i < |Decimal(n)| ==> Decimal(n)[i] != c
  {
  }

  /** The id, '@', the version, '-', then anything: every component is recovered. */
  lemma {:induction false} WarpTailInjective(k1: WarpKey, k2: WarpKey, x1: string, x2: string)
    requires Decimal(k1.warpId) + "@" + Decimal(k1.warpVersion) + "-" + x1
          == Decimal(k2.warpId) + "@" + Decimal(k2.warpVersion) + "-" + x2
    ensures k1 == k2 && x1 == x2
  {
    var r1 := Decimal(k1.warpVersion) + "-" + x1;
    var r2 := Decimal(k2.warpVersion) + "-" + x2;
    Regroup5(Decimal(k1.warpId), "@", Decimal(k1.warpVersion), "-", x1);
    Regroup5(Decimal(k2.warpId), "@", Decimal(k2.warpVersion), "-", x2);
    assert Decimal(k1.warpId) + ['@'] + r1 == Decimal(k2.warpId) + ['@'] + r2;
    DigitsLackSeparator(k1.warpId, '@');
    DigitsLackSeparator(k2.warpId, '@');
    SplitAtSeparator(Decimal(k1.warpId), r1, Decimal(k2.warpId), r2, '@');
    assert Decimal(k1.warpVersion) + ['-'] + x1 == Decimal(k2.warpVersion) + ['-'] + x2;
    DigitsLackSeparator(k1.warpVersion, '-');
    DigitsLackSeparator(k2.warpVersion, '-');
    SplitAtSeparator(Decimal(k1.warpVersion), x1, Decimal(k2.warpVersion), x2, '-');
    DecimalInjective(k1.warpId, k2.warpId);
    DecimalInjective(k1.warpVersion, k2.warpVersion);
  }

  /** A class id's text, '-', then anything: the id and the rest are recovered. */
  lemma {:induction false} IntTailInjective(c1: int, c2: int, x1: string, x2: string)
    requires IntText(c1) + "-" + x1 == IntText(c2) + "-" + x2
    ensures c1 == c2 && x1 == x2
  {
    var s := IntText(c1) + "-" + x1;
    assert s[0] == IntText(c1)[0] && s[0] == IntText(c2)[0];
    if c1 < 0 {
      assert c2 < 0;
      NegativeTail(-c1, -c2, x1, x2);
      DecimalTailInjective(-c1, -c2, x1, x2);
    } else {
      assert c2 >= 0;
      DecimalTailInjective(c1, c2, x1, x2);
    }
  }

  lemma NegativeTail(n1: nat, n2: nat, x1: string, x2: string)
    requires "-" + Decimal(n1) + "-" + x1 == "-" + Decimal(n2) + "-" + x2
    ensures Decimal(n1) + "-" + x1 == Decimal(n2) + "-" + x2
  {
    assert Decimal(n1) + "-" + x1 == ("-" + Decimal(n1) + "-" + x1)[1..];
    assert Decimal(n2) + "-" + x2 == ("-" + Decimal(n2) + "-" + x2)[1..];
  }

  /** Decimal digits, '-', then anything: the number and the rest are recovered. */
  lemma DecimalTailInjective(n1: nat, n2: nat, x1: string, x2: string)
    requires Decimal(n1) + "-" + x1 == Decimal(n2) + "-" + x2
    ensures n1 == n2 && x1 == x2
  {
    DigitsLackSeparator(n1, '-');
    DigitsLackSeparator(n2, '-');
    SplitAtSeparator(Decimal(n1), x1, Decimal(n2), x2, '-');
    DecimalInjective(n1, n2);
  }

  /** A class key's value, '-', then anything: the class key and the rest are recovered. */
  lemma {:induction false} ClassTailInjective(k1: ClassKey, k2: ClassKey, x1: string, x2: string)
    requires Decimal(k1.warpKey.warpId) + "@" + Decimal(k1.warpKey.warpVersion) + "-" + IntText(k1.classId) + "-" + x1
          == Decimal(k2.warpKey.warpId) + "@" + Decimal(k2.warpKey.warpVersion) + "-" + IntText(k2.classId) + "-" + x2
    ensures k1 == k2 && x1 == x2
  {
    var t1 := IntText(k1.classId) + "-" + x1;
    var t2 := IntText(k2.classId) + "-" + x2;
    var w1 := Decimal(k1.warpKey.warpId) + "@" + Decimal(k1.warpKey.warpVersion) + "-";
    var w2 := Decimal(k2.warpKey.warpId) + "@" + Decimal(k2.warpKey.warpVersion) + "-";
    Regroup3(w1, IntText(k1.classId), "-" + x1);
    Regroup3(w2, IntText(k2.classId), "-" + x2);
    Regroup3(w1 + IntText(k1.classId), "-", x1);
    Regroup3(w2 + IntText(k2.classId), "-", x2);
    Regroup3(IntText(k1.classId), "-", x1);
    Regroup3(IntText(k2.classId), "-", x2);
    assert Decimal(k1.warpKey.warpId) + "@" + Decimal(k1.warpKey.warpVersion) + "-" + t1
        == Decimal(k2.warpKey.warpId) + "@" + Decimal(k2.warpKey.warpVersion) + "-" + t2;
    WarpTailInjective(k1.warpKey, k2.warpKey, t1, t2);
    IntTailInjective(k1.classId, k2.classId, x1, x2);
  }

  lemma WarpKeyValueInjective(k1: WarpKey, k2: WarpKey)
    requires WarpKeyValue(k1) == WarpKeyValue(k2)
    ensures k1 == k2
  {
    var p := "WarpKey-";
    var r1 := Decimal(k1.warpId) + "@" + Decimal(k1.warpVersion);
    var r2 := Decimal(k2.warpId) + "@" + Decimal(k2.warpVersion);
    Regroup3(p, Decimal(k1.warpId) + "@", Decimal(k1.warpVersion));
    Regroup3(p, Decimal(k2.warpId) + "@", Decimal(k2.warpVersion));
    Regroup3(p, Decimal(k1.warpId), "@");
    Regroup3(p, Decimal(k2.warpId), "@");
    assert p + r1 == p + r2;
    DropPrefix(p, r1, r2);
    assert r1 + "-" + "" == r2 + "-" + "";
    WarpTailInjective(k1, k2, "", "");
  }

  lemma RegroupClass(p: string, a: string, b: string, c: string, x: string)
    ensures p + ("WarpKey-" + a + "@" + b) + "-" + c + "-" + x
         == (p + "WarpKey-") + (a + "@" + b + "-" + c + "-" + x)
  {
  }

  /** A prefix, a class key's warp and id, '-', then anything: the class key and the rest are recovered. */
  lemma ClassTail(p: string, k1: ClassKey, k2: ClassKey, x1: string, x2: string)
    requires p + WarpKeyValue(k1.warpKey) + "-" + IntText(k1.classId) + "-" + x1
          == p + WarpKeyValue(k2.warpKey) + "-" + IntText(k2.classId) + "-" + x2
    ensures k1 == k2 && x1 == x2
  {
    var u1 := Decimal(k1.warpKey.warpId) + "@" + Decimal(k1.warpKey.warpVersion) + "-" + IntText(k1.classId) + "-" + x1;
    var u2 := Decimal(k2.warpKey.warpId) + "@" + Decimal(k2.warpKey.warpVersion) + "-" + IntText(k2.classId) + "-" + x2;
    RegroupClass(p, Decimal(k1.warpKey.warpId), Decimal(k1.warpKey.warpVersion), IntText(k1.classId), x1);
    RegroupClass(p, Decimal(k2.warpKey.warpId), Decimal(k2.warpKey.warpVersion), IntText(k2.classId), x2);
    DropPrefix(p + "WarpKey-", u1, u2);
    ClassTailInjective(k1, k2, x1, x2);
  }

  lemma ClassKeyValueInjective(kind: ClassKind, k1: ClassKey, k2: ClassKey)
    requires ClassKeyValue(kind, k1) == ClassKeyValue(kind, k2)
    ensures k1 == k2
  {
    var p := ClassKindName(kind) + "-";
    ClassKeyValueSpelled(kind, k1);
    ClassKeyValueSpelled(kind, k2);
    assert p + WarpKeyValue(k1.warpKey) + "-" + IntText(k1.classId) + "-" + ""
        == p + WarpKeyValue(k2.warpKey) + "-" + IntText(k2.classId) + "-" + "";
    ClassTail(p, k1, k2, "", "");
  }

  lemma RegroupKey(p: string, q: string, w: string, c: string, x: string)
    ensures p + (q + w + "-" + c) + "-" + x == (p + q) + w + "-" + c + "-" + x
  {
  }

  lemma DataKeyValueInjective(k1: DataKey, k2: DataKey)
    requires DataKeyValue(k1) == DataKeyValue(k2)
    ensures k1 == k2
  {
    var q := ClassKindName(DataClass) + "-";
    var c1 := k1.classKey;
    var c2 := k2.classKey;
    DataKeyValueSpelled(k1);
    DataKeyValueSpelled(k2);
    ClassKeyValueSpelled(DataClass, c1);
    ClassKeyValueSpelled(DataClass, c2);
    RegroupKey("DataKey-", q, WarpKeyValue(c1.warpKey), IntText(c1.classId), k1.primaryKey);
    RegroupKey("DataKey-", q, WarpKeyValue(c2.warpKey), IntText(c2.classId), k2.primaryKey);
    ClassTail("DataKey-" + q, c1, c2, k1.primaryKey, k2.primaryKey);
  }

  lemma ServiceKeyValueInjective(k1: ServiceKey, k2: ServiceKey)
    requires ServiceKeyValue(k1) == ServiceKeyValue(k2)
    ensures k1 == k2
  {
    var q := ClassKindName(ServiceClass) + "-";
    var c1 := k1.classKey;
    var c2 := k2.classKey;
    ServiceKeyValueSpelled(k1);
    ServiceKeyValueSpelled(k2);
    ClassKeyValueSpelled(ServiceClass, c1);
    ClassKeyValueSpelled(ServiceClass, c2);
    RegroupKey("ServiceKey-", q, WarpKeyValue(c1.warpKey), IntText(c1.classId), k1.primaryKey);
    RegroupKey("ServiceKey-", q, WarpKeyValue(c2.warpKey), IntText(c2.classId), k2.primaryKey);
    ClassTail("ServiceKey-" + q, c1, c2, k1.primaryKey, k2.primaryKey);
  }

  /** "DataKey-..." and "ServiceKey-..." differ in their first character. */
  lemma SourceKeyValueHead(k: SourceKey)
    ensures |SourceKeyValue(k)| > 0
    ensures SourceKeyValue(k)[0] == (if k.DataSource? then 'D' else 'S')
  {
    SourceKeyValueSpelled(k);
    if k.DataSource? {
      DataKeyValueSpelled(k.dataKey);
    } else {
      ServiceKeyValueSpelled(k.serviceKey);
    }
  }

  lemma SourceKeyValueInjective(k1: SourceKey, k2: SourceKey)
    requires SourceKeyValue(k1) == SourceKeyValue(k2)
    ensures k1 == k2
  {
    if k1.DataSource? && k2.DataSource? {
      DataKeyValueInjective(k1.dataKey, k2.dataKey);
    } else if k1.ServiceSource? && k2.ServiceSource? {
      ServiceKeyValueInjective(k1.serviceKey, k2.serviceKey);
    } else {
      SourceKeyValueHead(k1);
      SourceKeyValueHead(k2);
      assert false;
    }
  }

  lemma MessageInstanceKeyValueInjective(k1: MessageInstanceKey, k2: MessageInstanceKey)
    requires MessageInstanceKeyValue(k1) == MessageInstanceKeyValue(k2)
    ensures k1 == k2
  {
    var q := ClassKindName(MessageClass) + "-";
    var c1 := k1.messageClassKey;
    var c2 := k2.messageClassKey;
    MessageInstanceKeyValueSpelled(k1);
    MessageInstanceKeyValueSpelled(k2);
    ClassKeyValueSpelled(MessageClass, c1);
    ClassKeyValueSpelled(MessageClass, c2);
    var p := "MessageInstanceKey-";
    RegroupKey(p, q, WarpKeyValue(c1.warpKey), IntText(c1.classId), SourceKeyValue(k1.sourceKey));
    RegroupKey(p, q, WarpKeyValue(c2.warpKey), IntText(c2.classId), SourceKeyValue(k2.sourceKey));
    ClassTail(p + q, c1, c2, SourceKeyValue(k1.sourceKey), SourceKeyValue(k2.sourceKey));
    SourceKeyValueInjective(k1.sourceKey, k2.sourceKey);
  }

  // ---------------------------------------------------------------------
  // equals(other): false for a missing other, otherwise the value strings
  // are compared. By the lemmas above this is exactly equality of keys.

  function WarpKeyEquals(k: WarpKey, other: Option<WarpKey>): (r: bool)
    ensures r <==> other == Some(k)
  {
    if other.None? then false
    else if WarpKeyValue(k) == WarpKeyValue(other.value) then
      WarpKeyValueInjective(k, other.value); true
    else false
  }

  function ClassKeyEquals(kind: ClassKind, k: ClassKey, other: Option<ClassKey>): (r: bool)
    ensures r <==> other == Some(k)
  {
    if other.None? then false
    else if ClassKeyValue(kind, k) == ClassKeyValue(kind, other.value) then
      ClassKeyValueInjective(kind, k, other.value); true
    else false
  }

  function DataKeyEquals(k: DataKey, other: Option<DataKey>): (r: bool)
    ensures r <==> other == Some(k)
  {
    if other.None? then false
    else if DataKeyValue(k) == DataKeyValue(other.value) then
      DataKeyValueInjective(k, other.value); true
    else false
  }

  function ServiceKeyEquals(k: ServiceKey, other: Option<ServiceKey>): (r: bool)
    ensures r <==> other == Some(k)
  {
    if other.None? then false
    else if ServiceKeyValue(k) == ServiceKeyValue(other.value) then
      ServiceKeyValueInjective(k, other.value); true
    else false
  }

  function MessageInstanceKeyEquals(k: MessageInstanceKey, other: Option<MessageInstanceKey>): (r: bool)
    ensures r <==> other == Some(k)
  {
    if other.None? then false
    else if MessageInstanceKeyValue(k) == MessageInstanceKeyValue(other.value) then
      MessageInstanceKeyValueInjective(k, other.value); true
    else false
  }
}
