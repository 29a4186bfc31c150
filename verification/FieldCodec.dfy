/** The names of metric fields: the length of a worker or queue name in decimal, a colon, the
    name, a bar and the metric. Strings hold one char per byte of their UTF-8 form. */
module FieldCodec {
  import opened Options

  const MAX_USIZE := 0xFFFF_FFFF_FFFF_FFFF

  const JOB_METRIC_KEYS := ["p", "f", "pn", "xs", "xf", "xpn", "ms"]

  const QUEUE_METRIC_KEYS := ["p", "s", "f"]

  // ----- decimal numbers --------------------------------------------------------

  function Digit(d: nat): (c: char)
    requires d < 10
    ensures '0' <= c <= '9'
  {
    "0123456789"[d]
  }

  predicate IsDigit(c: char) { '0' <= c <= '9' }

  function DigitValue(c: char): (d: nat)
    requires IsDigit(c)
    ensures d < 10
  {
    c as int - '0' as int
  }

  function Print(n: nat): (s: string)
    ensures s != [] && forall c <- s :: IsDigit(c)
  {
    if n < 10 then [Digit(n)] else Print(n / 10) + [Digit(n % 10)]
  }

  function ParseDigits(s: string): Option<nat> {
    if s == [] then Some(0)
    else
      match ParseDigits(s[..|s| - 1])
      case Some(n) => if IsDigit(s[|s| - 1]) then Some(10 * n + DigitValue(s[|s| - 1])) else None
      case None => None
  }

  /** `parse::<usize>`: an optional plus sign, at least one digit, no overflow. */
  function ParseUsize(s: string): Option<nat> {
    var digits := if s != [] && s[0] == '+' then s[1..] else s;
    match ParseDigits(digits)
    case Some(n) => if digits != [] && n <= MAX_USIZE then Some(n) else None
    case None => None
  }

  lemma {:induction false} ParsePrint(n: nat)
    ensures ParseDigits(Print(n)) == Some(n)
  {
    if n < 10 {
      assert ParseDigits([]) == Some(0) && [Digit(n)][..0] == [];
    } else {
      ParsePrint(n / 10);
      var s := Print(n);
      assert s[..|s| - 1] == Print(n / 10);
    }
  }

  // ----- splitting --------------------------------------------------------------

  function SplitOnce(s: string, c: char): (r: Option<(string, string)>)
    ensures r.Some? <==> c in s
    ensures r.Some? ==> c !in r.value.0 && s == r.value.0 + [c] + r.value.1
  {
    if s == [] then None
    else if s[0] == c then Some(([], s[1..]))
    else
      match SplitOnce(s[1..], c)
      case Some((left, right)) => Some(([s[0]] + left, right))
      case None => None
  }

  function RsplitOnce(s: string, c: char): (r: Option<(string, string)>)
    ensures r.Some? <==> c in s
    ensures r.Some? ==> c !in r.value.1 && s == r.value.0 + [c] + r.value.1
  {
    if s == [] then None
    else if s[|s| - 1] == c then Some((s[..|s| - 1], []))
    else
      match RsplitOnce(s[..|s| - 1], c)
      case Some((left, right)) => Some((left, right + [s[|s| - 1]]))
      case None => None
  }

  /** There is only one way to split at the first occurrence, and at the last. */
  lemma SplitOnceIs(left: string, c: char, right: string)
    requires c !in left
    ensures SplitOnce(left + [c] + right, c) == Some((left, right))
  {
    var s := left + [c] + right;
    assert s[|left|] == c && forall i :: 0 <= i < |left| ==> s[i] == left[i];
    var (l, r) := SplitOnce(s, c).value;
    assert s[|l|] == c && forall i :: 0 <= i < |l| ==> s[i] == l[i];
    assert l == s[..|l|] && left == s[..|left|] && r == s[|l| + 1..] && right == s[|left| + 1..];
  }

  lemma RsplitOnceIs(left: string, c: char, right: string)
    requires c !in right
    ensures RsplitOnce(left + [c] + right, c) == Some((left, right))
  {
    var s := left + [c] + right;
    assert s[|left|] == c && s[|left| + 1..] == right;
    var (l, r) := RsplitOnce(s, c).value;
    assert s[|l|] == c && s[|l| + 1..] == r;
    NotAfter(s, |left|, |l|, c);
    NotAfter(s, |l|, |left|, c);
    assert l == s[..|l|] && left == s[..|left|];
  }

  lemma NotAfter(s: string, i: nat, j: nat, c: char)
    requires i < |s| && j < |s| && c !in s[i + 1..] && s[j] == c
    ensures j <= i
  {
    assert forall k :: i < k < |s| ==> s[k] == s[i + 1..][k - i - 1];
  }

  // ----- fields -----------------------------------------------------------------

  /** A byte 10xxxxxx continues a character. */
  predicate IsCharBoundary(s: string, i: nat) { i == |s| || (i < |s| && !(0x80 <= s[i] as int < 0xC0)) }

  function FieldKey(name: string): string { Print(|name|) + ":" + name }

  function MetricField(name: string, metric: string): string { FieldKey(name) + "|" + metric }

  function FromFieldKey(key: string): Option<string> {
    match SplitOnce(key, ':')
    case None => None
    case Some((digits, rest)) =>
      match ParseUsize(digits)
      case None => None
      case Some(length) => if |rest| < length || !IsCharBoundary(rest, length) then None else Some(rest[..length])
  }

  function SplitMetricField(field: string): Option<(string, string)> {
    match RsplitOnce(field, '|')
    case None => None
    case Some((key, metric)) =>
      if metric !in JOB_METRIC_KEYS then None
      else
        match FromFieldKey(key)
        case Some(worker) => Some((worker, metric))
        case None => None
  }

  function SplitQueueMetricField(field: string): Option<(string, string)> {
    match RsplitOnce(field, '|')
    case None => None
    case Some((key, metric)) =>
      if metric !in QUEUE_METRIC_KEYS then None
      else
        match SplitOnce(key, ':')
        case None => None
        case Some((digits, queue)) =>
          match ParseUsize(digits)
          case None => None
          case Some(length) =>
            if |queue| != length || !IsCharBoundary(queue, length) then None else Some((queue, metric))
  }

  lemma PrintedParses(n: nat)
    requires n <= MAX_USIZE
    ensures ':' !in Print(n) && ParseUsize(Print(n)) == Some(n)
  {
    ParsePrint(n);
    hide Print, ParseDigits;
    assert IsDigit(Print(n)[0]);
  }

  lemma PrintedLength(name: string)
    requires |name| <= MAX_USIZE
    ensures ':' !in Print(|name|) && ParseUsize(Print(|name|)) == Some(|name|)
    ensures SplitOnce(FieldKey(name), ':') == Some((Print(|name|), name))
  {
    hide Print, ParseUsize, SplitOnce;
    PrintedParses(|name|);
    SplitOnceIs(Print(|name|), ':', name);
    assert Print(|name|) + [':'] + name == FieldKey(name);
  }

  /** Whatever bytes a worker name holds, colons, bars and digits among them, and for every known
      metric, splitting the printed field gives back the worker and the metric. */
  lemma MetricFieldRoundTrip(worker: string, metric: string)
    requires |worker| <= MAX_USIZE && metric in JOB_METRIC_KEYS
    ensures SplitMetricField(MetricField(worker, metric)) == Some((worker, metric))
  {
    PrintedLength(worker);
    assert worker[..|worker|] == worker;
    RsplitOnceIs(FieldKey(worker), '|', metric);
    assert FieldKey(worker) + ['|'] + metric == MetricField(worker, metric);
  }

  lemma QueueMetricFieldRoundTrip(queue: string, metric: string)
    requires |queue| <= MAX_USIZE && metric in QUEUE_METRIC_KEYS
    ensures SplitQueueMetricField(MetricField(queue, metric)) == Some((queue, metric))
  {
    PrintedLength(queue);
    RsplitOnceIs(FieldKey(queue), '|', metric);
    assert FieldKey(queue) + ['|'] + metric == MetricField(queue, metric);
  }

  /** Two counters never share a field. */
  lemma MetricFieldInjective(worker: string, metric: string, other: string, otherMetric: string)
    requires |worker| <= MAX_USIZE && |other| <= MAX_USIZE && metric in JOB_METRIC_KEYS && otherMetric in JOB_METRIC_KEYS
    requires MetricField(worker, metric) == MetricField(other, otherMetric)
    ensures worker == other && metric == otherMetric
  {
    MetricFieldRoundTrip(worker, metric);
    MetricFieldRoundTrip(other, otherMetric);
  }

  /** The fields of a queue are exactly those: a number without a colon that is the length of what
      follows up to the last bar. */
  lemma QueueFieldsExact(field: string, queue: string, metric: string)
    ensures SplitQueueMetricField(field) == Some((queue, metric)) <==>
              metric in QUEUE_METRIC_KEYS
              && exists digits :: ':' !in digits && ParseUsize(digits) == Some(|queue|)
                                  && field == digits + ":" + queue + "|" + metric
  {
    if SplitQueueMetricField(field) == Some((queue, metric)) {
      var (key, _) := RsplitOnce(field, '|').value;
      var (digits, _) := SplitOnce(key, ':').value;
      assert field == digits + ":" + queue + "|" + metric;
    }
    forall digits | metric in QUEUE_METRIC_KEYS && ':' !in digits && ParseUsize(digits) == Some(|queue|)
                    && field == digits + ":" + queue + "|" + metric
      ensures SplitQueueMetricField(field) == Some((queue, metric))
    {
      RsplitOnceIs(digits + ":" + queue, '|', metric);
      SplitOnceIs(digits, ':', queue);
      assert field == (digits + ":" + queue) + ['|'] + metric && digits + ":" + queue == digits + [':'] + queue;
    }
  }

  /** The fields of a worker may have more between the name and the last bar, cut at a character. */
  lemma MetricFieldsExact(field: string, worker: string, metric: string)
    ensures SplitMetricField(field) == Some((worker, metric)) <==>
              metric in JOB_METRIC_KEYS
              && exists digits, more :: ':' !in digits && ParseUsize(digits) == Some(|worker|)
                                        && IsCharBoundary(worker + more, |worker|)
                                        && field == digits + ":" + (worker + more) + "|" + metric
  {
    hide ParseUsize, IsCharBoundary;
    if SplitMetricField(field) == Some((worker, metric)) {
      var (key, _) := RsplitOnce(field, '|').value;
      var (digits, rest) := SplitOnce(key, ':').value;
      var more := rest[|worker|..];
      assert rest == worker + more;
      assert field == digits + ":" + (worker + more) + "|" + metric;
    }
    forall digits, more | metric in JOB_METRIC_KEYS && ':' !in digits && ParseUsize(digits) == Some(|worker|)
                          && IsCharBoundary(worker + more, |worker|)
                          && field == digits + ":" + (worker + more) + "|" + metric
      ensures SplitMetricField(field) == Some((worker, metric))
    {
      SplitsAgain(digits, worker, more, metric);
    }
  }

  lemma SplitsAgain(digits: string, worker: string, more: string, metric: string)
    requires metric in JOB_METRIC_KEYS && ':' !in digits && ParseUsize(digits) == Some(|worker|)
    requires IsCharBoundary(worker + more, |worker|)
    ensures SplitMetricField(digits + ":" + (worker + more) + "|" + metric) == Some((worker, metric))
  {
    hide ParseUsize, IsCharBoundary;
    var rest := worker + more;
    RsplitOnceIs(digits + ":" + rest, '|', metric);
    SplitOnceIs(digits, ':', rest);
    assert digits + ":" + rest == digits + [':'] + rest;
    assert rest[..|worker|] == worker;
  }
}
