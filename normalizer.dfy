/** The progress normaliser: turns one raw progress event reported by the
    downloader into the values a polling client is shown (app.py:27-82). */
module Normalizer {
  import opened Wrappers

  const KiB: int := 1024
  const MiB: int := 1024 * 1024
  const GiB: int := 1024 * 1024 * 1024

  /** One progress event, the dict `d` handed to the hook. Byte counts are
      integers, speed is bytes per second and eta is seconds. */
  datatype ProgressEvent = ProgressEvent(
    status: string,
    totalBytes: Slot<int>,
    totalBytesEstimate: Slot<int>,
    downloadedBytes: Slot<int>,
    speed: Slot<real>,
    eta: Slot<real>,
    filename: Slot<string>)

  // ---------------------------------------------------------------- totals

  /** Python truthiness of an optional integer: `None` and `0` are false. */
  predicate Truthy(x: Option<int>) {
    x.Some? && x.value != 0
  }

  /** `d.get('total_bytes') or d.get('total_bytes_estimate', 0)`; None when the
      expression evaluates to Python's `None`. */
  function Total(ev: ProgressEvent): (t: Option<int>)
    ensures Truthy(ev.totalBytes.Get()) ==> t == Some(ev.totalBytes.value)
    ensures !Truthy(ev.totalBytes.Get()) ==> t == ev.totalBytesEstimate.GetOr(0)
    ensures t.None? <==> !Truthy(ev.totalBytes.Get()) && ev.totalBytesEstimate.Null?
  {
    var exact := ev.totalBytes.Get();
    if Truthy(exact) then exact else ev.totalBytesEstimate.GetOr(0)
  }

  // --------------------------------------------------------------- percent

  /** `r` is a whole number of tenths. */
  predicate IsTenth(r: real) {
    (r * 10.0).Floor as real == r * 10.0
  }

  /** The whole number nearest to `y`, a tie going to the even one. */
  function NearestEven(y: real): (n: int)
    ensures -0.5 <= n as real - y <= 0.5
    ensures (n as real - y == 0.5 || y - n as real == 0.5) ==> n % 2 == 0
  {
    var k := y.Floor;
    var frac := y - k as real;
    if frac > 0.5 then k + 1
    else if frac < 0.5 then k
    else if k % 2 == 0 then k else k + 1
  }

  /** `round(x, 1)`: the nearest multiple of 0.1, a tie going to the even
      tenth (Python rounds halves to even). */
  function RoundTenth(x: real): (r: real)
    ensures IsTenth(r)
    ensures -0.05 <= r - x <= 0.05
    ensures (r - x == 0.05 || x - r == 0.05) ==> (r * 10.0).Floor % 2 == 0
  {
    var n := NearestEven(x * 10.0);
    assert (n as real / 10.0) * 10.0 == n as real;
    n as real / 10.0
  }

  /** The percent shown for `downloaded` of `total` bytes (app.py:33-36, 77):
      zero when the total is unknown, else the ratio rounded to a tenth. */
  function Percent(downloaded: int, total: int): (p: real)
    ensures total <= 0 ==> p == 0.0
    ensures total > 0 ==> IsTenth(p)
    ensures total > 0 ==> -0.05 <= p - (downloaded as real / total as real) * 100.0 <= 0.05
    ensures total > 0 ==> p == RoundTenth((downloaded as real / total as real) * 100.0)
  {
    if total > 0 then RoundTenth((downloaded as real / total as real) * 100.0) else 0.0
  }

  /** Rounding to a tenth never goes below a tenth that `x` is above. */
  lemma RoundTenthAtLeast(x: real, lo: int)
    requires lo as real / 10.0 <= x
    ensures lo as real / 10.0 <= RoundTenth(x)
  {
    var n := (RoundTenth(x) * 10.0).Floor;
    assert n as real == RoundTenth(x) * 10.0;
    assert n as real >= x * 10.0 - 0.5;
    assert lo <= n;
  }

  /** Rounding to a tenth never goes above a tenth that `x` is below. */
  lemma RoundTenthAtMost(x: real, hi: int)
    requires x <= hi as real / 10.0
    ensures RoundTenth(x) <= hi as real / 10.0
  {
    var n := (RoundTenth(x) * 10.0).Floor;
    assert n as real == RoundTenth(x) * 10.0;
    assert n as real <= x * 10.0 + 0.5;
    assert n <= hi;
  }

  /** While no more than the total has arrived, the percent is in [0, 100]. */
  lemma PercentBounded(downloaded: int, total: int)
    requires 0 <= downloaded <= total
    ensures 0.0 <= Percent(downloaded, total) <= 100.0
  {
    if total > 0 {
      var ratio := downloaded as real / total as real;
      RatioAtMostOne(downloaded, total);
      assert 0.0 <= ratio;
      RoundTenthAtLeast(ratio * 100.0, 0);
      RoundTenthAtMost(ratio * 100.0, 1000);
    }
  }

  /** No more than the total gives a ratio of at most one. */
  lemma RatioAtMostOne(downloaded: int, total: int)
    requires total > 0 && downloaded <= total
    ensures downloaded as real / total as real <= 1.0
  {
    var ratio := downloaded as real / total as real;
    assert ratio * total as real == downloaded as real;
  }

  /** No more than the total never shows above 100 percent. */
  lemma PercentAtMostHundred(downloaded: int, total: int)
    requires downloaded <= total
    ensures Percent(downloaded, total) <= 100.0
  {
    if total > 0 {
      RatioAtMostOne(downloaded, total);
      RoundTenthAtMost((downloaded as real / total as real) * 100.0, 1000);
    }
  }

  /** There is no clamp: a percent above 100 means more than the total (often
      only an estimate) has arrived. */
  lemma PercentAboveHundred(downloaded: int, total: int)
    ensures Percent(downloaded, total) > 100.0 ==> total > 0 && downloaded > total
  {
    if downloaded <= total {
      PercentAtMostHundred(downloaded, total);
    }
  }

  /** One and a half times the estimate shows as 150 percent. */
  lemma PercentNotClamped()
    ensures Percent(150, 100) == 150.0
  {
    assert (150 as real / 100 as real) * 100.0 == 150.0;
  }

  // ----------------------------------------------------------------- speed

  datatype SpeedUnit = BytesPerSecond | KiloBytesPerSecond | MegaBytesPerSecond {
    /** Bytes per second in one of this unit. */
    function Scale(): real {
      match this
      case BytesPerSecond => 1.0
      case KiloBytesPerSecond => 1024.0
      case MegaBytesPerSecond => 1048576.0
    }
  }

  /** The `speed` field: the placeholder "Initializing..." of a new job, the
      placeholder "Calculating...", or an amount in a unit (rendered with two
      decimals and the suffix " B/s", " KB/s" or " MB/s"). */
  datatype SpeedText = SpeedInitializing | SpeedCalculating | SpeedIn(amount: real, unit: SpeedUnit)

  /** app.py:38-47. The tier comparisons are strict, and there is no tier
      above MB/s. */
  function SpeedTier(speed: Option<real>): (r: SpeedText)
    ensures r != SpeedInitializing
    ensures r == SpeedCalculating <==> speed.None? || speed.value == 0.0
    ensures r.SpeedIn? ==> speed.Some? && r.amount * r.unit.Scale() == speed.value
    ensures r.SpeedIn? ==> (r.unit == MegaBytesPerSecond <==> speed.value > MiB as real)
    ensures r.SpeedIn? ==> (r.unit == KiloBytesPerSecond <==> KiB as real < speed.value <= MiB as real)
    ensures r.SpeedIn? ==> (r.unit == BytesPerSecond <==> speed.value <= KiB as real)
    ensures r.SpeedIn? && r.unit != BytesPerSecond ==> r.amount > 1.0
  {
    if speed.None? || speed.value == 0.0 then SpeedCalculating
    else if speed.value > MiB as real then SpeedIn(speed.value / MiB as real, MegaBytesPerSecond)
    else if speed.value > KiB as real then SpeedIn(speed.value / KiB as real, KiloBytesPerSecond)
    else SpeedIn(speed.value, BytesPerSecond)
  }

  /** Exactly 1024 bytes per second is still shown in B/s, and a terabyte per
      second is shown as a million MB/s. */
  lemma SpeedTierBoundaries()
    ensures SpeedTier(Some(1024.0)) == SpeedIn(1024.0, BytesPerSecond)
    ensures SpeedTier(Some(1025.0)).unit == KiloBytesPerSecond
    ensures SpeedTier(Some(1099511627776.0)) == SpeedIn(1048576.0, MegaBytesPerSecond)
  {
  }

  // ------------------------------------------------------------------ size

  datatype SizeUnit = KiloBytes | MegaBytes | GigaBytes {
    /** Bytes in one of this unit. */
    function Scale(): real {
      match this
      case KiloBytes => 1024.0
      case MegaBytes => 1048576.0
      case GigaBytes => 1073741824.0
    }
  }

  /** The `total_size` field: the placeholder "Calculating..." of a new job,
      a plain byte count ("<n> B"), or an amount in a unit (two decimals and
      " KB", " MB" or " GB"). */
  datatype SizeText = SizeCalculating | SizeBytes(bytes: int) | SizeIn(amount: real, unit: SizeUnit)

  /** app.py:66-73. Strict comparisons, no tier above GB. */
  function SizeTier(total: int): (r: SizeText)
    ensures r != SizeCalculating
    ensures r.SizeBytes? <==> total <= KiB
    ensures r.SizeBytes? ==> r.bytes == total
    ensures r.SizeIn? ==> r.amount * r.unit.Scale() == total as real && r.amount > 1.0
    ensures r.SizeIn? ==> (r.unit == GigaBytes <==> total > GiB)
    ensures r.SizeIn? ==> (r.unit == MegaBytes <==> MiB < total <= GiB)
    ensures r.SizeIn? ==> (r.unit == KiloBytes <==> KiB < total <= MiB)
  {
    if total > GiB then SizeIn(total as real / GiB as real, GigaBytes)
    else if total > MiB then SizeIn(total as real / MiB as real, MegaBytes)
    else if total > KiB then SizeIn(total as real / KiB as real, KiloBytes)
    else SizeBytes(total)
  }

  /** An unknown total is shown as "0 B", exactly 1024 bytes as "1024 B", and
      two terabytes as 2048 GB. */
  lemma SizeTierBoundaries()
    ensures SizeTier(0) == SizeBytes(0)
    ensures SizeTier(1024) == SizeBytes(1024)
    ensures SizeTier(2199023255552) == SizeIn(2048.0, GigaBytes)
  {
  }

  // ------------------------------------------------------------------- eta

  /** The `eta` field: the placeholder "Calculating...", "<n>s", or
      "<m>m <s>s". There is no hours form. */
  datatype EtaText = EtaCalculating | EtaSeconds(seconds: int) | EtaMinutes(minutes: int, seconds: int)

  /** Python's `int(x)`: truncation toward zero. */
  function Trunc(x: real): (n: int)
    ensures x >= 0.0 ==> n == x.Floor
    ensures x < 0.0 ==> n as real - 1.0 < x <= n as real
  {
    if x >= 0.0 then x.Floor else -((-x).Floor)
  }

  /** Python's `x % 60` on a float: the remainder has the sign of 60. */
  function Mod60(x: real): (m: real)
    ensures 0.0 <= m < 60.0
    ensures x - m == 60.0 * (x / 60.0).Floor as real
  {
    x - 60.0 * (x / 60.0).Floor as real
  }

  /** app.py:49-58: the ETA as shown, from `d.get('eta', 0)`. */
  function EtaTier(eta: Option<real>): (r: EtaText)
    ensures r == EtaCalculating <==> eta.None? || eta.value == 0.0
    ensures r.EtaSeconds? <==> eta.Some? && eta.value != 0.0 && eta.value < 60.0
    ensures r.EtaSeconds? ==> r.seconds == Trunc(eta.value)
    ensures r.EtaMinutes? ==> eta.Some? && eta.value >= 60.0
    ensures r.EtaMinutes? ==> r.minutes == eta.value.Floor / 60 && r.seconds == eta.value.Floor % 60
  {
    if eta.None? || eta.value == 0.0 then EtaCalculating
    else if eta.value < 60.0 then EtaSeconds(Trunc(eta.value))
    else
      var minutes := Trunc(eta.value / 60.0);
      var seconds := Trunc(Mod60(eta.value));
      FloorSplit(eta.value, minutes, seconds);
      EtaMinutes(minutes, seconds)
  }

  /** Splitting a non-negative `x` into whole minutes and the floor of the
      remaining seconds gives the Euclidean quotient and remainder of the
      whole seconds. */
  lemma FloorSplit(x: real, minutes: int, seconds: int)
    requires x >= 0.0
    requires minutes == (x / 60.0).Floor && seconds == Mod60(x).Floor
    ensures minutes == x.Floor / 60 && seconds == x.Floor % 60
  {
    var rest := Mod60(x);
    assert x == 60.0 * minutes as real + rest;
    assert seconds as real <= rest < seconds as real + 1.0;
    assert 0 <= seconds < 60;
    assert x.Floor == 60 * minutes + seconds;
  }

  /** The minutes are never folded into hours: two hours show as 120m 0s,
      and a fractional ETA under a minute is truncated. */
  lemma EtaHasNoHours()
    ensures EtaTier(Some(7200.0)) == EtaMinutes(120, 0)
    ensures EtaTier(Some(59.9)) == EtaSeconds(59)
    ensures EtaTier(Some(60.0)) == EtaMinutes(1, 0)
  {
    assert Trunc(7200.0 / 60.0) == 120;
    assert Mod60(7200.0) == 0.0;
    assert Mod60(60.0) == 0.0;
  }

  // -------------------------------------------------------------- filename

  /** `s.split(c)[-1]`: the text after the last `c`, or all of `s` when it
      holds no `c`. */
  function AfterLast(s: string, c: char): (r: string)
    ensures c !in r
    ensures |r| <= |s| && r == s[|s| - |r|..]
    ensures c in s ==> |r| < |s| && s[|s| - |r| - 1] == c
    ensures c !in s ==> r == s
  {
    if |s| == 0 then ""
    else if s[|s| - 1] == c then ""
    else
      var init := s[..|s| - 1];
      var rest := AfterLast(init, c);
      assert s[|s| - |rest| - 1..] == init[|init| - |rest|..] + [s[|s| - 1]];
      assert c in s ==> c in init;
      rest + [s[|s| - 1]]
  }

  /** app.py:61-64: the base name of a path, split on '/' when it holds one,
      else on '\\'. */
  function BaseName(path: string): (r: string)
    ensures '/' !in r
    ensures |r| <= |path| && r == path[|path| - |r|..]
    ensures '/' in path ==> |r| < |path| && path[|path| - |r| - 1] == '/'
    ensures '/' !in path && '\\' in path ==> '\\' !in r && |r| < |path| && path[|path| - |r| - 1] == '\\'
    ensures r == path <==> '/' !in path && '\\' !in path
  {
    if '/' in path then AfterLast(path, '/')
    else if '\\' in path then AfterLast(path, '\\')
    else path
  }

  // ------------------------------------------------------------- normalise

  /** What one 'downloading' event contributes to a job's entry. */
  datatype Progress = Progress(percent: real, speed: SpeedText, eta: EtaText, filename: string, totalSize: SizeText)

  /** The three ways the `try` block of app.py:29-82 raises: comparing a
      `None` total with 0, dividing a `None` download count, or testing '/'
      in a `None` filename. */
  predicate Raises(ev: ProgressEvent) {
    || Total(ev).None?
    || (Total(ev).value > 0 && ev.downloadedBytes.Null?)
    || ev.filename.Null?
  }

  /** The normaliser, app.py:29-82: None when the block raises (the hook then
      only logs), else the values the new entry is built from. */
  function Normalise(ev: ProgressEvent): (r: Option<Progress>)
    ensures r.None? <==> Raises(ev)
    ensures r.Some? ==> r.value.speed == SpeedTier(ev.speed.Get())
    ensures r.Some? ==> r.value.eta == EtaTier(ev.eta.GetOr(0.0))
    ensures r.Some? ==> r.value.filename == BaseName(if ev.filename.Given? then ev.filename.value else "Unknown")
    ensures r.Some? ==> r.value.totalSize == SizeTier(Total(ev).value)
    ensures r.Some? ==> r.value.percent == Percent(if ev.downloadedBytes.Given? then ev.downloadedBytes.value else 0, Total(ev).value)
  {
    match Total(ev)
    case None => None
    case Some(total) =>
      var downloaded := ev.downloadedBytes.GetOr(0);
      if total > 0 && downloaded.None? then None
      else
        var percent := if total > 0 then Percent(downloaded.value, total) else 0.0;
        match ev.filename.GetOr("Unknown")
        case None => None
        case Some(name) =>
          Some(Progress(percent, SpeedTier(ev.speed.Get()), EtaTier(ev.eta.GetOr(0.0)), BaseName(name), SizeTier(total)))
  }

  /** With the exact total unknown and no estimate, the event still
      normalises: percent 0 and a total of "0 B". */
  lemma UnknownTotalShowsZero(ev: ProgressEvent)
    requires !Truthy(ev.totalBytes.Get()) && ev.totalBytesEstimate.Missing?
    requires !ev.filename.Null?
    ensures Normalise(ev).Some?
    ensures Normalise(ev).value.percent == 0.0 && Normalise(ev).value.totalSize == SizeBytes(0)
  {
  }
}
