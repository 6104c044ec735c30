/** Transfer-slot bookkeeping of the file transfer orchestrator: two resizable
    semaphores bounding parallel downloads and uploads, the set of download
    requests the server has marked ready, and the per-slot bandwidth limit. */
module FileTransfers {
  import opened Int32
  import opened Wrappers

  /** A `SemaphoreSlim`: its maximum count and the count currently free. */
  datatype Semaphore = Semaphore(max: int, free: int)
  {
    predicate Valid() { 1 <= max <= MaxValue && 0 <= free <= max }
  }

  /** The configured unit of `DownloadSpeedLimitInBytes`; `Unlisted` stands for
      any other value of the enum. */
  datatype DownloadSpeed = Bps | KBps | MBps | Unlisted(code: int)

  /** What a wait for a slot ends with in this sequential model. */
  datatype WaitOutcome =
    | Acquired    // a slot was taken
    | MustWait    // no slot is free: the caller would be suspended
    | ResizeFailed  // resizing to a non-positive count made SemaphoreSlim's constructor throw

  /** Bytes per unit of the configured speed type. */
  function Multiplier(t: DownloadSpeed): int
  {
    match t
    case Bps => 1
    case KBps => 1024
    case MBps => 1024 * 1024
    case Unlisted(_) => 1
  }

  /** The unit conversion as C# computes it: each `* 1024` is a 32-bit
      multiplication that wraps around, so the result is exact only while the
      product fits in an `int`. */
  function ConvertLimit(limit: int, t: DownloadSpeed): (r: int)
    requires InRange(limit)
    ensures InRange(r)
    ensures InRange(limit * Multiplier(t)) ==> r == limit * Multiplier(t)
  {
    match t
    case Bps => limit
    case KBps => Wrap(limit * 1024)
    case MBps => Wrap(Wrap(limit * 1024) * 1024)
    case Unlisted(_) => limit
  }

  /** The number the limit is divided by: the used slots, or 1 when none is used. */
  function Divisor(used: int): int
  {
    if used == 0 then 1 else used
  }

  /** `DownloadLimitPerSlot` as written: 0 for no limit, otherwise the converted
      limit divided (truncating) among the used slots, `long.MaxValue` for a
      negative quotient, and at least 1. The used-slot count is negative after a
      failed resize, and then the sign of the quotient flips. The one division
      C# refuses, `int.MinValue / -1`, is excluded. */
  function DownloadLimitPerSlot(limit: int, t: DownloadSpeed, used: int): (r: int)
    requires InRange(limit) && InRange(used)
    requires limit > 0 && used == -1 ==> ConvertLimit(limit, t) != MinValue
    ensures r == 0 <==> limit <= 0
    ensures limit > 0 ==> 1 <= r <= LongMaxValue
    ensures limit > 0 && used < 0 && ConvertLimit(limit, t) >= -used ==> r == LongMaxValue
    ensures limit > 0 && used < 0 && 0 <= ConvertLimit(limit, t) < -used ==> r == 1
  {
    if limit <= 0 then 0
    else
      var c := ConvertLimit(limit, t);
      TruncDivSign(c, Divisor(used));
      ClampQuotient(TruncDiv(c, Divisor(used)))
  }

  /** What the code makes of the quotient: a negative one means no limit
      (`long.MaxValue`); otherwise it is clamped to at least 1. */
  function ClampQuotient(q: int): int
  {
    if q < 0 then LongMaxValue
    else if q < 1 then 1
    else q
  }

  function Abs(x: int): nat
  {
    if x < 0 then -x else x
  }

  /** A quotient of naturals is at least 1 exactly when the dividend is at
      least the divisor, and it never exceeds the dividend. */
  lemma {:induction false} DivAtLeastOne(a: int, b: int)
    requires a >= 0 && b > 0
    ensures a / b >= 1 <==> a >= b
    ensures 0 <= a / b <= a
  {
    var q, m := a / b, a % b;
    assert a == q * b + m && 0 <= m < b;
    if q >= 1 {
      MulAtLeast(q, b);
      MulAtLeast(b, q);
      assert q * b == b * q;
    }
  }

  /** A truncating quotient is no larger than the dividend in magnitude, it is
      0 exactly when the dividend is smaller than the divisor in magnitude, and
      otherwise its sign is the product of the operands' signs. */
  lemma {:induction false} TruncDivSign(a: int, b: int)
    requires b != 0
    ensures Abs(TruncDiv(a, b)) <= Abs(a)
    ensures TruncDiv(a, b) == 0 <==> Abs(a) < Abs(b)
    ensures TruncDiv(a, b) < 0 <==> Abs(a) >= Abs(b) && (a < 0) != (b < 0)
  {
    DivAtLeastOne(Abs(a), Abs(b));
    assert (a >= 0 && b > 0) || (a < 0 && b < 0) ==> TruncDiv(a, b) == Abs(a) / Abs(b);
  }

  /** `long.MaxValue`, meaning no limit at all, comes out exactly when the
      converted limit and the divisor have opposite signs and the converted
      limit is at least as large as the divisor in magnitude. */
  lemma {:induction false} UnlimitedExactly(limit: int, t: DownloadSpeed, used: int)
    requires InRange(limit) && InRange(used)
    requires limit > 0 && used == -1 ==> ConvertLimit(limit, t) != MinValue
    ensures var c, d := ConvertLimit(limit, t), Divisor(used);
            DownloadLimitPerSlot(limit, t, used) == LongMaxValue <==>
              limit > 0 && ((c < 0 && d > 0 && -c >= d) || (c > 0 && d < 0 && c >= -d))
  {
    if limit > 0 {
      TruncDivSign(ConvertLimit(limit, t), Divisor(used));
    }
  }

  /** A positive limit scaled by a unit stays positive and grows with the limit. */
  lemma {:induction false} ProductBounds(l1: int, l2: int, t: DownloadSpeed)
    requires 0 < l1 <= l2
    ensures l1 <= l1 * Multiplier(t) <= l2 * Multiplier(t) <= l2 * (1024 * 1024)
  {
    match t
    case Bps =>
    case KBps =>
    case MBps =>
    case Unlisted(_) =>
  }

  /** Stepwise wrapping is one wrap of the exact product. */
  lemma {:induction false} ConvertLimitIsWrappedProduct(limit: int, t: DownloadSpeed)
    requires InRange(limit)
    ensures ConvertLimit(limit, t) == Wrap(limit * Multiplier(t))
  {
    if t.MBps? {
      var a := limit * 1024;
      var w := Wrap(a);
      assert (w - a) % 0x1_0000_0000 == 0;
      var k := (w - a) / 0x1_0000_0000;
      assert w == a + k * 0x1_0000_0000;
      assert w * 1024 == limit * (1024 * 1024) + (k * 1024) * 0x1_0000_0000;
      WrapCongruent(w * 1024, limit * (1024 * 1024), k * 1024);
    } else if t.KBps? {
    }
  }

  /** Values that differ by a multiple of 2^32 wrap to the same 32-bit value. */
  lemma {:induction false} WrapCongruent(x: int, y: int, k: int)
    requires x == y + k * 0x1_0000_0000
    ensures Wrap(x) == Wrap(y)
  {
    var r1, r2 := Wrap(x), Wrap(y);
    var q1 := (r1 - x) / 0x1_0000_0000;
    var q2 := (r2 - y) / 0x1_0000_0000;
    assert r1 - x == 0x1_0000_0000 * q1;
    assert r2 - y == 0x1_0000_0000 * q2;
    assert r1 - r2 == 0x1_0000_0000 * (q1 - q2 + k);
  }

  /** Without wrap-around and with a non-negative used-slot count, the limit per
      slot is the exact bytes-per-second limit divided among the used slots,
      and never below 1. */
  lemma {:induction false} DownloadLimitPerSlotExact(limit: int, t: DownloadSpeed, used: int)
    requires InRange(limit) && 0 < limit && 0 <= used <= MaxValue
    requires limit * Multiplier(t) <= MaxValue
    ensures var d := limit * Multiplier(t) / Divisor(used);
            DownloadLimitPerSlot(limit, t, used) == if d < 1 then 1 else d
  {
    var p, d := limit * Multiplier(t), Divisor(used);
    ProductBounds(limit, limit, t);
    assert ConvertLimit(limit, t) == p;
    assert TruncDiv(p, d) == p / d;
    DivAtLeastOne(p, d);
    assert DownloadLimitPerSlot(limit, t, used) == ClampQuotient(p / d);
  }

  /** 2048 MB/s wraps to `int.MinValue`, a negative quotient: no limit at all. */
  lemma {:induction false} WrapToNegative()
    ensures ConvertLimit(2048, MBps) == MinValue
    ensures DownloadLimitPerSlot(2048, MBps, 1) == LongMaxValue
  {
    assert Wrap(2048 * 1024) == 2048 * 1024;
    assert Wrap(2048 * 1024 * 1024) == MinValue;
  }

  /** 4096 MB/s wraps to 0 and is clamped to 1 byte per second, far below the
      2047 MB/s a smaller setting gives. */
  lemma {:induction false} WrapToZero()
    ensures ConvertLimit(4096, MBps) == 0
    ensures DownloadLimitPerSlot(4096, MBps, 1) == 1
    ensures DownloadLimitPerSlot(2047, MBps, 1) == 2047 * 1024 * 1024
  {
    assert Wrap(4096 * 1024) == 4096 * 1024;
    assert Wrap(4096 * 1024 * 1024) == 0;
    assert Wrap(2047 * 1024) == 2047 * 1024;
    assert Wrap(2047 * 1024 * 1024) == 2047 * 1024 * 1024;
  }

  /** The evidently intended limit per slot: the conversion done in 64 bits
      (a 32-bit limit times 2^20 always fits, and so does every quotient), then
      the same division and clamping. */
  function DownloadLimitPerSlotWide(limit: int, t: DownloadSpeed, used: int): (r: int)
    requires InRange(limit) && InRange(used)
    ensures r == 0 <==> limit <= 0
    ensures limit > 0 ==> 1 <= r <= LongMaxValue
    ensures limit > 0 && used >= 0 ==> r <= limit * Multiplier(t) < LongMaxValue
    ensures limit > 0 && used < 0 ==> (r == LongMaxValue <==> limit * Multiplier(t) >= -used)
    ensures limit > 0 && used < 0 ==> (r == 1 <==> limit * Multiplier(t) < -used)
  {
    if limit <= 0 then 0
    else
      var p := limit * Multiplier(t);
      ProductBounds(limit, limit, t);
      TruncDivSign(p, Divisor(used));
      ClampQuotient(TruncDiv(p, Divisor(used)))
  }

  /** With the 64-bit conversion a higher configured limit never yields a lower
      limit per slot, whatever the used-slot count. */
  lemma {:induction false} DownloadLimitPerSlotWideMonotonic(l1: int, l2: int, t: DownloadSpeed, used: int)
    requires InRange(l1) && InRange(l2) && 0 < l1 <= l2 && InRange(used)
    ensures DownloadLimitPerSlotWide(l1, t, used) <= DownloadLimitPerSlotWide(l2, t, used)
  {
    var p1, p2 := l1 * Multiplier(t), l2 * Multiplier(t);
    ProductBounds(l1, l2, t);
    ClampMonotonic(p1, p2, Divisor(used));
  }

  /** A larger positive dividend never gives a smaller clamped quotient. */
  lemma {:induction false} ClampMonotonic(p1: int, p2: int, d: int)
    requires 0 < p1 <= p2 && d != 0
    ensures ClampQuotient(TruncDiv(p1, d)) <= ClampQuotient(TruncDiv(p2, d))
  {
    var q1, q2 := TruncDiv(p1, d), TruncDiv(p2, d);
    if d > 0 {
      DivMonotonic(p1, p2, d);
      DivAtLeastOne(p1, d);
      assert 0 <= q1 <= q2;
    } else {
      TruncDivSign(p1, d);
      TruncDivSign(p2, d);
      assert q1 < 0 ==> q2 < 0;
      assert q1 <= 0 && q2 <= 0;
    }
  }

  lemma {:induction false} DivMonotonic(a: int, b: int, d: int)
    requires 0 <= a <= b && d > 0
    ensures a / d <= b / d
  {
    var qa, qb := a / d, b / d;
    assert a == qa * d + a % d && b == qb * d + b % d;
    if qa > qb {
      assert qa * d - qb * d == (qa - qb) * d;
      MulAtLeast(qa - qb, d);
    }
  }

  lemma {:induction false} MulAtLeast(x: int, d: int)
    requires x >= 1 && d > 0
    ensures x * d >= d
    decreases x
  {
    if x > 1 {
      MulAtLeast(x - 1, d);
      assert x * d == (x - 1) * d + d;
    }
  }

  /** The 64-bit conversion agrees with the code wherever the code does not wrap. */
  lemma {:induction false} WideAgreesWithoutWrap(limit: int, t: DownloadSpeed, used: int)
    requires InRange(limit) && InRange(used)
    requires limit * Multiplier(t) <= MaxValue
    ensures limit > 0 && used == -1 ==> ConvertLimit(limit, t) != MinValue
    ensures DownloadLimitPerSlotWide(limit, t, used) == DownloadLimitPerSlot(limit, t, used)
  {
    if limit > 0 {
      ProductBounds(limit, limit, t);
      assert ConvertLimit(limit, t) == limit * Multiplier(t);
    }
  }

  /** Creating the orchestrator. `new SemaphoreSlim(n, n)` throws for a
      non-positive count, so with no configured download or upload slots no
      orchestrator comes into being. */
  method NewOrchestrator(downloads: int, uploads: int, limit: int, speed: DownloadSpeed)
    returns (o: Option<FileTransferOrchestrator>)
    requires InRange(downloads) && InRange(uploads) && InRange(limit)
    ensures o.None? <==> downloads < 1 || uploads < 1
    ensures o.Some? ==>
      && fresh(o.value) && o.value.Valid() && o.value.Consistent()
      && o.value.parallelDownloads == downloads && o.value.parallelUploads == uploads
      && o.value.downloadSpeedLimit == limit && o.value.downloadSpeedType == speed
      && o.value.downloadSemaphore == Semaphore(downloads, downloads)
      && o.value.uploadSemaphore == Semaphore(uploads, uploads)
      && o.value.downloadReady == map[] && o.value.limitChangedMessages == 0
  {
    if downloads < 1 || uploads < 1 {
      return None;
    }
    var orchestrator := new FileTransferOrchestrator(downloads, uploads, limit, speed);
    return Some(orchestrator);
  }

  /** The orchestrator's slot state. `Guid`s are modelled as naturals. */
  class FileTransferOrchestrator {
    // configuration, read on every wait
    var parallelDownloads: int
    var parallelUploads: int
    var downloadSpeedLimit: int
    var downloadSpeedType: DownloadSpeed

    var availableDownloadSlots: int
    var availableUploadSlots: int
    var downloadSemaphore: Semaphore
    var uploadSemaphore: Semaphore
    var downloadReady: map<nat, bool>
    /** How many `DownloadLimitChangedMessage`s have been published. */
    var limitChangedMessages: nat

    ghost predicate Valid()
      reads this
    {
      downloadSemaphore.Valid() && uploadSemaphore.Valid()
      && InRange(parallelDownloads) && InRange(parallelUploads) && InRange(downloadSpeedLimit)
      && InRange(availableDownloadSlots) && InRange(availableUploadSlots)
    }

    /** The slot counters match their semaphores; a failed resize breaks this. */
    ghost predicate Consistent()
      reads this
    {
      availableDownloadSlots == downloadSemaphore.max && availableUploadSlots == uploadSemaphore.max
    }

    constructor (downloads: int, uploads: int, limit: int, speed: DownloadSpeed)
      requires 1 <= downloads <= MaxValue && 1 <= uploads <= MaxValue && InRange(limit)
      ensures Valid() && Consistent()
      ensures parallelDownloads == downloads && parallelUploads == uploads
      ensures downloadSpeedLimit == limit && downloadSpeedType == speed
      ensures downloadSemaphore == Semaphore(downloads, downloads)
      ensures uploadSemaphore == Semaphore(uploads, uploads)
      ensures downloadReady == map[] && limitChangedMessages == 0
    {
      parallelDownloads, parallelUploads := downloads, uploads;
      downloadSpeedLimit, downloadSpeedType := limit, speed;
      availableDownloadSlots := downloads;
      downloadSemaphore := Semaphore(downloads, downloads);
      availableUploadSlots := uploads;
      uploadSemaphore := Semaphore(uploads, uploads);
      downloadReady := map[];
      limitChangedMessages := 0;
    }

    /** `CurrentlyUsedDownloadSlots`, a 32-bit subtraction: the slots taken
        while the counter matches the semaphore; after a failed resize the
        counter is the non-positive configured count and this is at most 0. */
    function UsedDownloadSlots(): (r: int)
      reads this
      requires Valid()
      ensures InRange(r)
      ensures Consistent() ==> 0 <= r <= downloadSemaphore.max && r + downloadSemaphore.free == downloadSemaphore.max
      ensures availableDownloadSlots <= 0 && MinValue + downloadSemaphore.free <= availableDownloadSlots ==>
        r == availableDownloadSlots - downloadSemaphore.free <= 0
    {
      Wrap(availableDownloadSlots - downloadSemaphore.free)
    }

    /** `CurrentlyUsedUploadSlots`, the same subtraction for uploads. */
    function UsedUploadSlots(): (r: int)
      reads this
      requires Valid()
      ensures InRange(r)
      ensures Consistent() ==> 0 <= r <= uploadSemaphore.max && r + uploadSemaphore.free == uploadSemaphore.max
      ensures availableUploadSlots <= 0 && MinValue + uploadSemaphore.free <= availableUploadSlots ==>
        r == availableUploadSlots - uploadSemaphore.free <= 0
    {
      Wrap(availableUploadSlots - uploadSemaphore.free)
    }

    /** The settings change the configured slot counts and limit. */
    method Configure(downloads: int, uploads: int, limit: int, speed: DownloadSpeed)
      requires Valid() && InRange(downloads) && InRange(uploads) && InRange(limit)
      modifies this
      ensures Valid()
      ensures parallelDownloads == downloads && parallelUploads == uploads
      ensures downloadSpeedLimit == limit && downloadSpeedType == speed
      ensures availableDownloadSlots == old(availableDownloadSlots) && availableUploadSlots == old(availableUploadSlots)
      ensures downloadSemaphore == old(downloadSemaphore) && uploadSemaphore == old(uploadSemaphore)
      ensures downloadReady == old(downloadReady) && limitChangedMessages == old(limitChangedMessages)
    {
      parallelDownloads, parallelUploads := downloads, uploads;
      downloadSpeedLimit, downloadSpeedType := limit, speed;
    }

    /** `WaitForDownloadSlotAsync`: adopt the configured count when it differs
        and every slot is free, then take a slot if one is free. */
    method WaitForDownloadSlot() returns (outcome: WaitOutcome)
      requires Valid()
      modifies this
      ensures Valid()
      ensures var resize := old(availableDownloadSlots != parallelDownloads
                                && availableDownloadSlots == downloadSemaphore.free);
        && (resize ==> availableDownloadSlots == parallelDownloads)
        && (!resize ==> availableDownloadSlots == old(availableDownloadSlots))
        && (resize && parallelDownloads < 1 ==> outcome == ResizeFailed && downloadSemaphore == old(downloadSemaphore))
        && (outcome != ResizeFailed ==>
              var s := if resize then Semaphore(parallelDownloads, parallelDownloads) else old(downloadSemaphore);
              && (s.free > 0 ==> outcome == Acquired && downloadSemaphore == s.(free := s.free - 1))
              && (s.free == 0 ==> outcome == MustWait && downloadSemaphore == s))
      ensures outcome == Acquired <==> limitChangedMessages == old(limitChangedMessages) + 1
      ensures outcome != Acquired ==> limitChangedMessages == old(limitChangedMessages)
      ensures old(Consistent()) && outcome != ResizeFailed ==> Consistent()
      ensures outcome == ResizeFailed ==> !Consistent()
      ensures outcome == ResizeFailed && parallelDownloads == 0 ==> UsedDownloadSlots() == -downloadSemaphore.free
      ensures parallelDownloads == old(parallelDownloads) && parallelUploads == old(parallelUploads)
      ensures downloadSpeedLimit == old(downloadSpeedLimit) && downloadSpeedType == old(downloadSpeedType)
      ensures availableUploadSlots == old(availableUploadSlots) && uploadSemaphore == old(uploadSemaphore)
      ensures downloadReady == old(downloadReady)
    {
      if availableDownloadSlots != parallelDownloads && availableDownloadSlots == downloadSemaphore.free {
        availableDownloadSlots := parallelDownloads;
        if parallelDownloads < 1 {
          return ResizeFailed;
        }
        downloadSemaphore := Semaphore(parallelDownloads, parallelDownloads);
      }
      if downloadSemaphore.free > 0 {
        downloadSemaphore := downloadSemaphore.(free := downloadSemaphore.free - 1);
        limitChangedMessages := limitChangedMessages + 1;
        outcome := Acquired;
      } else {
        outcome := MustWait;
      }
    }

    /** `WaitForUploadSlotAsync`: the same rule for uploads, without a message. */
    method WaitForUploadSlot() returns (outcome: WaitOutcome)
      requires Valid()
      modifies this
      ensures Valid()
      ensures var resize := old(availableUploadSlots != parallelUploads
                                && availableUploadSlots == uploadSemaphore.free);
        && (resize ==> availableUploadSlots == parallelUploads)
        && (!resize ==> availableUploadSlots == old(availableUploadSlots))
        && (resize && parallelUploads < 1 ==> outcome == ResizeFailed && uploadSemaphore == old(uploadSemaphore))
        && (outcome != ResizeFailed ==>
              var s := if resize then Semaphore(parallelUploads, parallelUploads) else old(uploadSemaphore);
              && (s.free > 0 ==> outcome == Acquired && uploadSemaphore == s.(free := s.free - 1))
              && (s.free == 0 ==> outcome == MustWait && uploadSemaphore == s))
      ensures old(Consistent()) && outcome != ResizeFailed ==> Consistent()
      ensures outcome == ResizeFailed ==> !Consistent()
      ensures outcome == ResizeFailed && parallelUploads == 0 ==> UsedUploadSlots() == -uploadSemaphore.free
      ensures parallelDownloads == old(parallelDownloads) && parallelUploads == old(parallelUploads)
      ensures downloadSpeedLimit == old(downloadSpeedLimit) && downloadSpeedType == old(downloadSpeedType)
      ensures availableDownloadSlots == old(availableDownloadSlots) && downloadSemaphore == old(downloadSemaphore)
      ensures downloadReady == old(downloadReady) && limitChangedMessages == old(limitChangedMessages)
    {
      if availableUploadSlots != parallelUploads && availableUploadSlots == uploadSemaphore.free {
        availableUploadSlots := parallelUploads;
        if parallelUploads < 1 {
          return ResizeFailed;
        }
        uploadSemaphore := Semaphore(parallelUploads, parallelUploads);
      }
      if uploadSemaphore.free > 0 {
        uploadSemaphore := uploadSemaphore.(free := uploadSemaphore.free - 1);
        outcome := Acquired;
      } else {
        outcome := MustWait;
      }
    }

    /** `ReleaseDownloadSlot`: frees a slot and announces it; at full count the
        `SemaphoreFullException` is swallowed and nothing happens. */
    method ReleaseDownloadSlot()
      requires Valid()
      modifies this`downloadSemaphore, this`limitChangedMessages
      ensures Valid()
      ensures old(downloadSemaphore.free) < old(downloadSemaphore.max) ==>
        downloadSemaphore == old(downloadSemaphore).(free := old(downloadSemaphore.free) + 1)
        && limitChangedMessages == old(limitChangedMessages) + 1
      ensures old(downloadSemaphore.free) == old(downloadSemaphore.max) ==>
        downloadSemaphore == old(downloadSemaphore) && limitChangedMessages == old(limitChangedMessages)
    {
      if downloadSemaphore.free < downloadSemaphore.max {
        downloadSemaphore := downloadSemaphore.(free := downloadSemaphore.free + 1);
        limitChangedMessages := limitChangedMessages + 1;
      }
    }

    /** `ReleaseUploadSlot`: frees a slot; at full count nothing happens. */
    method ReleaseUploadSlot()
      requires Valid()
      modifies this`uploadSemaphore
      ensures Valid()
      ensures old(uploadSemaphore.free) < old(uploadSemaphore.max) ==>
        uploadSemaphore == old(uploadSemaphore).(free := old(uploadSemaphore.free) + 1)
      ensures old(uploadSemaphore.free) == old(uploadSemaphore.max) ==> uploadSemaphore == old(uploadSemaphore)
    {
      if uploadSemaphore.free < uploadSemaphore.max {
        uploadSemaphore := uploadSemaphore.(free := uploadSemaphore.free + 1);
      }
    }

    /** The `DownloadReadyMessage` handler records a ready signal. */
    method MarkDownloadReady(request: nat)
      modifies this`downloadReady
      ensures downloadReady == old(downloadReady)[request := true]
      ensures IsDownloadReady(request)
    {
      downloadReady := downloadReady[request := true];
    }

    /** `ClearDownloadRequest`: forgets the request's ready signal. */
    method ClearDownloadRequest(request: nat)
      modifies this`downloadReady
      ensures downloadReady == old(downloadReady) - {request}
      ensures !IsDownloadReady(request)
      ensures forall g :: g != request ==> IsDownloadReady(g) == old(IsDownloadReady(g))
    {
      downloadReady := downloadReady - {request};
    }

    /** `IsDownloadReady`: a ready signal was recorded and not cleared since. */
    predicate IsDownloadReady(request: nat): (r: bool)
      reads this
      ensures request !in downloadReady ==> !r
      ensures request in downloadReady ==> (r <==> downloadReady[request])
    {
      request in downloadReady && downloadReady[request]
    }

    /** `DownloadLimitPerSlot` on the current state, with the conversion done
        in 64 bits; it is the code's value whenever the code does not wrap. */
    function CurrentDownloadLimitPerSlot(): (r: int)
      reads this
      requires Valid()
      ensures r == 0 <==> downloadSpeedLimit <= 0
      ensures downloadSpeedLimit > 0 ==> 1 <= r <= LongMaxValue
      ensures Consistent() && downloadSpeedLimit > 0 ==> r < LongMaxValue
      ensures downloadSpeedLimit * Multiplier(downloadSpeedType) <= MaxValue ==>
        && (downloadSpeedLimit > 0 && UsedDownloadSlots() == -1 ==> ConvertLimit(downloadSpeedLimit, downloadSpeedType) != MinValue)
        && r == DownloadLimitPerSlot(downloadSpeedLimit, downloadSpeedType, UsedDownloadSlots())
    {
      var used := UsedDownloadSlots();
      if downloadSpeedLimit * Multiplier(downloadSpeedType) <= MaxValue then
        WideAgreesWithoutWrap(downloadSpeedLimit, downloadSpeedType, used);
        DownloadLimitPerSlotWide(downloadSpeedLimit, downloadSpeedType, used)
      else DownloadLimitPerSlotWide(downloadSpeedLimit, downloadSpeedType, used)
    }

    /** `GetDownloadLimitPerSlot()` as the code computes it, with the 32-bit
        conversion; `None` where C# throws for `int.MinValue / -1`. */
    function CodeDownloadLimitPerSlot(): (r: Option<int>)
      reads this
      requires Valid()
      ensures r.None? <==>
        downloadSpeedLimit > 0 && UsedDownloadSlots() == -1 && ConvertLimit(downloadSpeedLimit, downloadSpeedType) == MinValue
      ensures Consistent() ==> r.Some?
      ensures r.Some? ==> (r.value == 0 <==> downloadSpeedLimit <= 0)
      ensures r.Some? && downloadSpeedLimit * Multiplier(downloadSpeedType) <= MaxValue ==>
        r.value == CurrentDownloadLimitPerSlot()
      ensures downloadSpeedType == MBps && downloadSpeedLimit == 2048 && UsedDownloadSlots() >= 0 ==>
        r == Some(LongMaxValue)
      ensures downloadSpeedType == MBps && downloadSpeedLimit == 4096 ==> r == Some(1)
    {
      var used := UsedDownloadSlots();
      WrapToNegative();
      WrapToZero();
      if downloadSpeedLimit > 0 && used == -1 && ConvertLimit(downloadSpeedLimit, downloadSpeedType) == MinValue then None
      else
        UnlimitedExactly(downloadSpeedLimit, downloadSpeedType, used);
        Some(DownloadLimitPerSlot(downloadSpeedLimit, downloadSpeedType, used))
    }
  }
}
