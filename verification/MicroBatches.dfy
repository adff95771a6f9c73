/** Dynamic micro-batches: how many, how heavy, and how the scores find their way back. */
module MicroBatches {
  import opened Arith
  import opened Balancing
  import opened Results
  import opened Seqs

  // ---------------------------------------------------------------- the number of micro-batches

  /** Python's `//`. */
  function FloorDiv(a: int, b: int): int
    requires b != 0
  {
    if b > 0 then a / b else -a / -b
  }

  function CeilDiv(a: int, b: int): int
    requires b != 0
  {
    -FloorDiv(a, -b)
  }

  function RoundUp(a: nat, b: nat): nat
    requires b > 0
  {
    (a + b - 1) / b * b
  }

  lemma CeilDivBounds(a: nat, b: nat)
    requires b > 0
    ensures CeilDiv(a, b) >= 0
    ensures a <= CeilDiv(a, b) * b < a + b
  {
    var m: int := 0 - a;
    var q: int := m / b;
    assert m == b * q + m % b;
    assert CeilDiv(a, b) == -q;
    assert -q * b == -(b * q);
  }

  lemma RoundUpBounds(a: nat, b: nat)
    requires b > 0
    ensures a <= RoundUp(a, b) && RoundUp(a, b) % b == 0
  {
    var x := a + b - 1;
    var q := x / b;
    assert x == b * q + x % b;
    assert b * q == q * b;
    DivMod(q * b, b, q, 0);
  }

  function CountTrue(row: seq<bool>): nat {
    if row == [] then 0 else (if row[0] then 1 else 0) + CountTrue(row[1..])
  }

  lemma {:induction false} CountBounded(row: seq<bool>)
    ensures CountTrue(row) <= |row|
  {
    if row != [] { CountBounded(row[1..]); }
  }

  lemma {:induction false} CountTrueIs(row: seq<bool>)
    ensures CountTrue(row) == multiset(row)[true]
  {
    if row == [] {
    } else {
      CountTrueIs(row[1..]);
      assert row == [row[0]] + row[1..];
    }
  }

  /** `attention_mask.sum(dim=1)`. */
  function EffectiveLens(mask: seq<seq<bool>>): seq<nat> {
    seq(|mask|, i requires 0 <= i < |mask| => CountTrue(mask[i]))
  }

  function MaxOf(a: nat, others: seq<nat>): nat
    decreases |others|
  {
    if others == [] then a else MaxOf(if others[0] > a then others[0] else a, others[1..])
  }

  /** The maximum: an upper bound of the value and the others, and one of them. */
  lemma {:induction false} MaxOfIs(a: nat, others: seq<nat>)
    ensures a <= MaxOf(a, others) && forall x :: x in others ==> x <= MaxOf(a, others)
    ensures MaxOf(a, others) == a || MaxOf(a, others) in others
    decreases |others|
  {
    if others == [] {
    } else {
      MaxOfIs(if others[0] > a then others[0] else a, others[1..]);
      assert others == [others[0]] + others[1..];
    }
  }

  /** How many micro-batches: enough for the tokens, then raised to the configured minimum, to the
      maximum over the data-parallel ranks, and to a multiple. */
  function NumMicroBatches(lens: seq<nat>, maxTokenLen: nat, minNum: Option<nat>, otherRanks: seq<nat>,
                           dividedBy: Option<nat>): nat
    requires maxTokenLen > 0 && dividedBy != Some(0)
  {
    CeilDivBounds(TotalLen(lens), maxTokenLen);
    var needed: nat := CeilDiv(TotalLen(lens), maxTokenLen);
    var a := if |lens| < needed then |lens| else needed;
    var b := if minNum.Some? && minNum.value > a then minNum.value else a;
    var c := MaxOf(b, otherRanks);
    if dividedBy.Some? then RoundUp(c, dividedBy.value) else c
  }

  /** m micro-batches are enough for the tokens (or one per row), the configured minimum and every rank. */
  ghost predicate Enough(m: nat, lens: seq<nat>, maxTokenLen: nat, minNum: Option<nat>, otherRanks: seq<nat>) {
    && (TotalLen(lens) <= m * maxTokenLen || |lens| <= m)
    && (minNum.Some? ==> minNum.value <= m) && forall x :: x in otherRanks ==> x <= m
  }

  lemma CeilDivLeast(a: nat, b: nat, m: nat)
    requires b > 0
    ensures a <= m * b <==> CeilDiv(a, b) <= m
  {
    CeilDivBounds(a, b);
    var q := CeilDiv(a, b);
    if q <= m { MulLe(q, m, b); } else { MulGap(m, q, b); }
  }

  lemma RoundUpLeast(a: nat, b: nat, m: nat)
    requires b > 0 && a <= m && m % b == 0
    ensures RoundUp(a, b) <= m
  {
    var x, q := a + b - 1, m / b;
    assert x == b * (x / b) + x % b && m == b * q && b * q == q * b && b * (x / b) == x / b * b;
    if q < x / b { MulGap(q, x / b, b); }
  }

  /** The count before it is raised to a multiple. */
  lemma EnoughIff(m: nat, lens: seq<nat>, maxTokenLen: nat, minNum: Option<nat>, otherRanks: seq<nat>)
    requires maxTokenLen > 0
    ensures Enough(m, lens, maxTokenLen, minNum, otherRanks) <==> NumMicroBatches(lens, maxTokenLen, minNum, otherRanks, None) <= m
  {
    CeilDivBounds(TotalLen(lens), maxTokenLen);
    CeilDivLeast(TotalLen(lens), maxTokenLen, m);
    var needed: nat := CeilDiv(TotalLen(lens), maxTokenLen);
    var a := if |lens| < needed then |lens| else needed;
    MaxOfIs(if minNum.Some? && minNum.value > a then minNum.value else a, otherRanks);
  }

  /** The number of micro-batches is the least that is enough and, with a divisor, a multiple of it. */
  lemma CountIsLeast(lens: seq<nat>, maxTokenLen: nat, minNum: Option<nat>, otherRanks: seq<nat>, dividedBy: Option<nat>)
    requires maxTokenLen > 0 && dividedBy != Some(0)
    ensures var k := NumMicroBatches(lens, maxTokenLen, minNum, otherRanks, dividedBy);
            && Enough(k, lens, maxTokenLen, minNum, otherRanks) && (dividedBy.Some? ==> k % dividedBy.value == 0)
            && forall m: nat | Enough(m, lens, maxTokenLen, minNum, otherRanks) && (dividedBy.Some? ==> m % dividedBy.value == 0)
                 :: k <= m
  {
    var k := NumMicroBatches(lens, maxTokenLen, minNum, otherRanks, dividedBy);
    var k0 := NumMicroBatches(lens, maxTokenLen, minNum, otherRanks, None);
    if dividedBy.Some? { RoundUpBounds(k0, dividedBy.value); }
    EnoughIff(k, lens, maxTokenLen, minNum, otherRanks);
    forall m: nat | Enough(m, lens, maxTokenLen, minNum, otherRanks) && (dividedBy.Some? ==> m % dividedBy.value == 0)
      ensures k <= m
    {
      EnoughIff(m, lens, maxTokenLen, minNum, otherRanks);
      if dividedBy.Some? { RoundUpLeast(k0, dividedBy.value, m); }
    }
  }

  /** `rearrange_micro_batches`: the index lists of the micro-batches. */
  function Rearrange(mask: seq<seq<bool>>, width: nat, maxTokenLen: nat, minNum: Option<nat>, otherRanks: seq<nat>,
                     dividedBy: Option<nat>): Result<seq<seq<nat>>>
  {
    if maxTokenLen < width then Raise(AssertionError)
    else if maxTokenLen == 0 || dividedBy == Some(0) then Raise(ZeroDivisionError)
    else
      var lens := EffectiveLens(mask);
      var k := NumMicroBatches(lens, maxTokenLen, minNum, otherRanks, dividedBy);
      if k > |lens| then Raise(AssertionError) else BalancedPartitions(lens, k, false)
  }

  /** A sum of bounded lengths. */
  lemma {:induction false} TotalBound(lens: seq<nat>, top: nat)
    requires forall i :: 0 <= i < |lens| ==> lens[i] <= top
    ensures TotalLen(lens) <= |lens| * top
  {
    if lens != [] {
      TotalBound(lens[1..], top);
      assert |lens| * top == |lens[1..]| * top + top;
    }
  }

  /** `min(batch_size, ..)` never bites: the tokens never need more micro-batches than rows. */
  lemma TokensFitTheRows(lens: seq<nat>, maxTokenLen: nat)
    requires maxTokenLen > 0 && forall i :: 0 <= i < |lens| ==> lens[i] <= maxTokenLen
    ensures CeilDiv(TotalLen(lens), maxTokenLen) <= |lens|
  {
    TotalBound(lens, maxTokenLen);
    CeilDivBounds(TotalLen(lens), maxTokenLen);
    var q := CeilDiv(TotalLen(lens), maxTokenLen);
    if q > |lens| { MulGap(|lens|, q, maxTokenLen); }
  }

  /** The count is never below what the tokens need. */
  lemma EnoughMicroBatches(lens: seq<nat>, maxTokenLen: nat, minNum: Option<nat>, otherRanks: seq<nat>, dividedBy: Option<nat>)
    requires maxTokenLen > 0 && dividedBy != Some(0) && forall i :: 0 <= i < |lens| ==> lens[i] <= maxTokenLen
    ensures CeilDiv(TotalLen(lens), maxTokenLen) <= NumMicroBatches(lens, maxTokenLen, minNum, otherRanks, dividedBy)
  {
    TokensFitTheRows(lens, maxTokenLen);
    var needed := CeilDiv(TotalLen(lens), maxTokenLen);
    var b := if minNum.Some? && minNum.value > needed then minNum.value else needed;
    MaxOfIs(b, otherRanks);
    if dividedBy.Some? { RoundUpBounds(MaxOf(b, otherRanks), dividedBy.value); }
  }

  lemma EnoughRoom(k: nat, q: nat, total: nat, top: nat, cap: nat)
    requires q <= k && total <= q * cap && k > 0 && cap > 0
    requires k * top <= total + (k - 1) * cap
    ensures top < 2 * cap
  {
    if q < k { MulGap(q, k, cap); }
    MulGap(k - 1, k, cap);
    if top >= 2 * cap { Doubled(k, cap, top); }
  }

  lemma Doubled(k: nat, cap: nat, top: nat)
    requires top >= 2 * cap
    ensures k * top >= k * cap + k * cap
  {
    assert k * top == k * (top - 2 * cap) + k * cap + k * cap;
  }

  lemma LensBounded(mask: seq<seq<bool>>, width: nat)
    requires forall i :: 0 <= i < |mask| ==> |mask[i]| == width
    ensures forall i :: 0 <= i < |mask| ==> EffectiveLens(mask)[i] <= width
  {
    forall i | 0 <= i < |mask| ensures EffectiveLens(mask)[i] <= width { CountBounded(mask[i]); }
  }

  /** Splitting succeeds exactly when the limit covers the padded width and the wanted count is
      between 1 and the number of rows; then every row is in exactly one micro-batch, none is
      empty, and each has fewer than twice the allowed tokens. */
  lemma RearrangeIsBounded(mask: seq<seq<bool>>, width: nat, maxTokenLen: nat, minNum: Option<nat>,
                           otherRanks: seq<nat>, dividedBy: Option<nat>)
    requires forall i :: 0 <= i < |mask| ==> |mask[i]| == width
    ensures Rearrange(mask, width, maxTokenLen, minNum, otherRanks, dividedBy).Ok? <==>
            && width <= maxTokenLen && maxTokenLen > 0 && dividedBy != Some(0)
            && 1 <= NumMicroBatches(EffectiveLens(mask), maxTokenLen, minNum, otherRanks, dividedBy) <= |mask|
    ensures Rearrange(mask, width, maxTokenLen, minNum, otherRanks, dividedBy).Ok? ==>
              var parts := Rearrange(mask, width, maxTokenLen, minNum, otherRanks, dividedBy).value;
              && ExactPartition(parts, |mask|)
              && forall i :: 0 <= i < |parts| ==>
                   parts[i] != [] && Load(EffectiveLens(mask), parts[i]) < 2 * maxTokenLen
  {
    if width <= maxTokenLen && maxTokenLen > 0 && dividedBy != Some(0) {
      var lens := EffectiveLens(mask);
      var k := NumMicroBatches(lens, maxTokenLen, minNum, otherRanks, dividedBy);
      BalancedPartitionsSucceed(lens, k, false);
      LensBounded(mask, width);
      if 1 <= k <= |lens| {
        var parts := BalancedPartitions(lens, k, false).value;
        forall i | 0 <= i < |parts| ensures Load(lens, parts[i]) < 2 * maxTokenLen {
          MicroBatchLoad(lens, maxTokenLen, k, minNum, otherRanks, dividedBy, i);
        }
      }
    }
  }

  lemma MicroBatchLoad(lens: seq<nat>, cap: nat, k: nat, minNum: Option<nat>, otherRanks: seq<nat>,
                       dividedBy: Option<nat>, i: nat)
    requires cap > 0 && dividedBy != Some(0) && forall j :: 0 <= j < |lens| ==> lens[j] <= cap
    requires k == NumMicroBatches(lens, cap, minNum, otherRanks, dividedBy) && 1 <= k <= |lens| && i < k
    ensures BalancedPartitions(lens, k, false).Ok? && |BalancedPartitions(lens, k, false).value| == k
    ensures Load(lens, BalancedPartitions(lens, k, false).value[i]) < 2 * cap
  {
    BalancedPartitionsSucceed(lens, k, false);
    var parts := BalancedPartitions(lens, k, false).value;
    HeaviestBalanced(lens, k, i);
    SupWithin(lens, cap);
    MulLe(Sup(lens), cap, k - 1);
    assert (k - 1) * Sup(lens) == Sup(lens) * (k - 1) && (k - 1) * cap == cap * (k - 1);
    EnoughMicroBatches(lens, cap, minNum, otherRanks, dividedBy);
    CeilDivBounds(TotalLen(lens), cap);
    EnoughRoom(k, CeilDiv(TotalLen(lens), cap), TotalLen(lens), Load(lens, parts[i]), cap);
  }

  // ---------------------------------------------------------------- when the limit holds

  ghost predicate WithinLimit(lens: seq<nat>, parts: seq<seq<nat>>, cap: nat) {
    forall i :: 0 <= i < |parts| ==> Load(lens, parts[i]) <= cap
  }

  lemma CancelFactor(k: nat, a: nat, b: nat)
    requires k > 0 && k * a <= k * b
    ensures a <= b
  {
    if b < a { MulGap(b, a, k); }
  }

  /** The limit holds in every micro-batch if the micro-batches leave room, beside all tokens, for
      one longest row in all but one of them. */
  lemma LimitHoldsWithRoom(mask: seq<seq<bool>>, width: nat, maxTokenLen: nat, minNum: Option<nat>,
                           otherRanks: seq<nat>, dividedBy: Option<nat>)
    requires Rearrange(mask, width, maxTokenLen, minNum, otherRanks, dividedBy).Ok?
    requires var lens := EffectiveLens(mask);
             var k := NumMicroBatches(lens, maxTokenLen, minNum, otherRanks, dividedBy);
             TotalLen(lens) + (k - 1) * Sup(lens) <= k * maxTokenLen
    ensures WithinLimit(EffectiveLens(mask), Rearrange(mask, width, maxTokenLen, minNum, otherRanks, dividedBy).value, maxTokenLen)
  {
    var lens := EffectiveLens(mask);
    var k := NumMicroBatches(lens, maxTokenLen, minNum, otherRanks, dividedBy);
    BalancedPartitionsSucceed(lens, k, false);
    var parts := BalancedPartitions(lens, k, false).value;
    forall i | 0 <= i < |parts| ensures Load(lens, parts[i]) <= maxTokenLen {
      HeaviestBalanced(lens, k, i);
      CancelFactor(k, Load(lens, parts[i]), maxTokenLen);
    }
  }

  lemma {:induction false} UniformTotal(lens: seq<nat>, m: nat)
    requires forall i :: 0 <= i < |lens| ==> lens[i] == m
    ensures TotalLen(lens) == |lens| * m && Sup(lens) <= m
  {
    if lens != [] {
      assert forall i :: 0 <= i < |lens[1..]| ==> lens[1..][i] == lens[i + 1];
      UniformTotal(lens[1..], m);
      assert |lens| * m == |lens[1..]| * m + m;
    }
  }

  lemma {:induction false} UniformLoad(lens: seq<nat>, m: nat, part: seq<nat>)
    requires forall i :: 0 <= i < |lens| ==> lens[i] == m
    requires forall j :: 0 <= j < |part| ==> part[j] < |lens|
    ensures Load(lens, part) == |part| * m
  {
    if part != [] {
      assert forall j :: 0 <= j < |part[1..]| ==> part[1..][j] == part[j + 1];
      UniformLoad(lens, m, part[1..]);
      assert |part| * m == |part[1..]| * m + m;
    }
  }

  lemma {:induction false} InConcat(parts: seq<seq<nat>>, i: nat, x: nat)
    requires i < |parts| && x in parts[i]
    ensures x in Flat(parts)
  {
    if i > 0 {
      InConcat(parts[1..], i - 1, x);
    }
  }

  lemma PartsInRange(parts: seq<seq<nat>>, n: nat, i: nat)
    requires ExactPartition(parts, n) && i < |parts|
    ensures forall j :: 0 <= j < |parts[i]| ==> parts[i][j] < n
  {
    forall j | 0 <= j < |parts[i]| ensures parts[i][j] < n {
      InConcat(parts, i, parts[i][j]);
      assert parts[i][j] in multiset(Flat(parts));
      assert parts[i][j] in multiset(Range(0, n));
    }
  }

  lemma {:induction false} SumUpper(lens: seq<nat>, parts: seq<seq<nat>>, top: nat)
    requires forall i :: 0 <= i < |parts| ==> Load(lens, parts[i]) <= top
    ensures SumLoads(lens, parts) <= |parts| * top
  {
    if parts != [] {
      assert forall i :: 0 <= i < |parts[1..]| ==> parts[1..][i] == parts[i + 1];
      SumUpper(lens, parts[1..], top);
      OneMoreTimes(|parts|, top);
    }
  }

  /** Rows of one length: a part holds the multiple of it that its number of rows makes. */
  lemma UniformSize(size: nat, m: nat, n: nat, k: nat)
    requires k > 0 && m > 0 && k * (size * m) <= n * m + (k - 1) * m
    ensures size <= CeilDiv(n, k)
  {
    var q := CeilDiv(n, k);
    CeilDivBounds(n, k);
    assert k * (size * m) == (k * size) * m && n * m + (k - 1) * m == (n + k - 1) * m;
    if n + k - 1 < k * size { MulGap(n + k - 1, k * size, m); }
    assert k * size == size * k;
    if q < size { MulGap(q, size, k); }
  }

  lemma UniformRoom(n: nat, k: nat, m: nat, q: nat)
    requires k > 0 && m > 0 && n * m <= k * (q * m)
    ensures CeilDiv(n, k) <= q
  {
    assert k * (q * m) == (k * q) * m && k * q == q * k;
    if q * k < n { MulGap(q * k, n, m); }
    CeilDivBounds(n, k);
    var c := CeilDiv(n, k);
    if q < c { MulGap(q, c, k); }
  }

  lemma QuotientFits(size: nat, m: nat, cap: nat)
    requires m > 0 && size * m <= cap
    ensures size <= cap / m && cap / m * m <= cap
  {
    assert cap == m * (cap / m) + cap % m && m * (cap / m) == cap / m * m;
    if cap / m < size { MulGap(cap / m, size, m); }
  }

  lemma UniformFits(lens: seq<nat>, k: nat, m: nat, cap: nat)
    requires m > 0 && forall i :: 0 <= i < |lens| ==> lens[i] == m
    requires BalancedPartitions(lens, k, false).Ok? && k > 0 && CeilDiv(|lens|, k) * m <= cap
    ensures WithinLimit(lens, BalancedPartitions(lens, k, false).value, cap)
  {
    BalancedPartitionsSucceed(lens, k, false);
    var parts := BalancedPartitions(lens, k, false).value;
    forall i | 0 <= i < |parts| ensures Load(lens, parts[i]) <= cap {
      UniformTotal(lens, m);
      HeaviestBalanced(lens, k, i);
      MulLe(Sup(lens), m, k - 1);
      assert (k - 1) * Sup(lens) == Sup(lens) * (k - 1) && (k - 1) * m == m * (k - 1);
      PartsInRange(parts, |lens|, i);
      UniformLoad(lens, m, parts[i]);
      UniformSize(|parts[i]|, m, |lens|, k);
      MulLe(|parts[i]|, CeilDiv(|lens|, k), m);
    }
  }

  lemma UniformNeeds(lens: seq<nat>, parts: seq<seq<nat>>, m: nat, cap: nat)
    requires m > 0 && forall i :: 0 <= i < |lens| ==> lens[i] == m
    requires ExactPartition(parts, |lens|) && parts != [] && WithinLimit(lens, parts, cap)
    ensures CeilDiv(|lens|, |parts|) * m <= cap
  {
    var q := cap / m;
    QuotientFits(0, m, cap);
    forall i | 0 <= i < |parts| ensures Load(lens, parts[i]) <= q * m {
      PartsInRange(parts, |lens|, i);
      UniformLoad(lens, m, parts[i]);
      QuotientFits(|parts[i]|, m, cap);
      MulLe(|parts[i]|, q, m);
    }
    SumUpper(lens, parts, q * m);
    PartsWeighTotal(lens, parts);
    UniformTotal(lens, m);
    UniformRoom(|lens|, |parts|, m, q);
    CeilDivBounds(|lens|, |parts|);
    MulLe(CeilDiv(|lens|, |parts|), q, m);
  }

  /** On rows of one common length the limit holds if and only if it admits the rows divided evenly. */
  lemma LimitIffEvenRowsFit(mask: seq<seq<bool>>, m: nat, width: nat, maxTokenLen: nat, minNum: Option<nat>,
                            otherRanks: seq<nat>, dividedBy: Option<nat>)
    requires forall i :: 0 <= i < |mask| ==> CountTrue(mask[i]) == m
    requires Rearrange(mask, width, maxTokenLen, minNum, otherRanks, dividedBy).Ok?
    ensures var k := NumMicroBatches(EffectiveLens(mask), maxTokenLen, minNum, otherRanks, dividedBy);
            && 1 <= k <= |mask|
            && (WithinLimit(EffectiveLens(mask), Rearrange(mask, width, maxTokenLen, minNum, otherRanks, dividedBy).value, maxTokenLen)
                <==> CeilDiv(|mask|, k) * m <= maxTokenLen)
  {
    var lens := EffectiveLens(mask);
    var k := NumMicroBatches(lens, maxTokenLen, minNum, otherRanks, dividedBy);
    BalancedPartitionsSucceed(lens, k, false);
    if m == 0 {
      NoTokensFit(lens, k, maxTokenLen);
    } else {
      EvenRows(lens, k, m, maxTokenLen);
    }
  }

  lemma NoTokensFit(lens: seq<nat>, k: nat, cap: nat)
    requires BalancedPartitions(lens, k, false).Ok? && k > 0 && forall i :: 0 <= i < |lens| ==> lens[i] == 0
    ensures WithinLimit(lens, BalancedPartitions(lens, k, false).value, cap)
  {
    BalancedPartitionsSucceed(lens, k, false);
    UniformTotal(lens, 0);
    var parts := BalancedPartitions(lens, k, false).value;
    forall i | 0 <= i < |parts| ensures Load(lens, parts[i]) <= cap {
      PartsInRange(parts, |lens|, i);
      UniformLoad(lens, 0, parts[i]);
    }
  }

  lemma EvenRows(lens: seq<nat>, k: nat, m: nat, cap: nat)
    requires m > 0 && forall i :: 0 <= i < |lens| ==> lens[i] == m
    requires BalancedPartitions(lens, k, false).Ok? && k > 0
    ensures WithinLimit(lens, BalancedPartitions(lens, k, false).value, cap) <==> CeilDiv(|lens|, k) * m <= cap
  {
    BalancedPartitionsSucceed(lens, k, false);
    var parts := BalancedPartitions(lens, k, false).value;
    if CeilDiv(|lens|, k) * m <= cap { UniformFits(lens, k, m, cap); }
    if WithinLimit(lens, parts, cap) { UniformNeeds(lens, parts, m, cap); }
  }

  /** Two parts of three rows of six tokens: one of them has at least twelve. */
  lemma OneOfTwoIsHeavy(lens: seq<nat>, parts: seq<seq<nat>>)
    requires lens == [6, 6, 6] && |parts| == 2 && ExactPartition(parts, 3)
    ensures Load(lens, parts[0]) >= 12 || Load(lens, parts[1]) >= 12
  {
    TotalLenPush([], 6);
    TotalLenPush([6], 6);
    TotalLenPush([6, 6], 6);
    assert [] + [6] == [6] && [6] + [6] == [6, 6] && [6, 6] + [6] == lens;
    PartsWeighTotal(lens, parts);
    TwoLoads(lens, parts);
    SixEach(lens, parts[0]);
  }

  lemma TwoMicroBatches(lens: seq<nat>)
    requires lens == [6, 6, 6]
    ensures NumMicroBatches(lens, 10, None, [], None) == 2
  {
    TotalLenPush([], 6);
    TotalLenPush([6], 6);
    TotalLenPush([6, 6], 6);
    assert [] + [6] == [6] && [6] + [6] == [6, 6] && [6, 6] + [6] == lens;
    assert TotalLen(lens) == 18;
  }

  /** The documented promise is a single limit per micro-batch; three rows of six tokens under a
      limit of ten show that it can be exceeded. */
  lemma LimitCanBeExceeded(mask: seq<seq<bool>>)
    requires |mask| == 3 && forall i :: 0 <= i < 3 ==> mask[i] == seq(6, j => true)
    ensures var r := Rearrange(mask, 6, 10, None, [], None);
            r.Ok? && exists i :: 0 <= i < |r.value| && Load(EffectiveLens(mask), r.value[i]) > 10
  {
    var lens := EffectiveLens(mask);
    assert lens == [6, 6, 6] by {
      forall i | 0 <= i < 3 ensures lens[i] == 6 { AllTrue(mask[i]); }
    }
    TwoMicroBatches(lens);
    BalancedPartitionsSucceed(lens, 2, false);
    OneOfTwoIsHeavy(lens, BalancedPartitions(lens, 2, false).value);
  }

  lemma TwoLoads(lens: seq<nat>, parts: seq<seq<nat>>)
    requires |parts| == 2
    ensures SumLoads(lens, parts) == Load(lens, parts[0]) + Load(lens, parts[1])
  {
    assert parts[1..] == [parts[1]];
    assert SumLoads(lens, [parts[1]]) == Load(lens, parts[1]) + SumLoads(lens, []);
  }

  lemma {:induction false} AllTrue(row: seq<bool>)
    requires forall i :: 0 <= i < |row| ==> row[i]
    ensures CountTrue(row) == |row|
  {
    if row != [] { AllTrue(row[1..]); }
  }

  lemma {:induction false} SixEach(lens: seq<nat>, part: seq<nat>)
    requires lens == [6, 6, 6]
    ensures Load(lens, part) % 6 == 0
  {
    if part != [] { SixEach(lens, part[1..]); }
  }
}
