/** Which instants are quiet: from 21:00 up to 09:00 in India, read off the
    milliseconds of the day (go/rz/rules.go:193-205, go/rz/sandbox.go:86-98). */
module Hours {
  import opened Rules

  /** Milliseconds since midnight in India, five and a half hours ahead of UTC. */
  function TimeOfDay(ms: int): int { (ms + 19800000) % 86400000 }

  /** 21:00 or later, or before 09:00. */
  predicate Quiet(ms: int) { TimeOfDay(ms) >= 75600000 || TimeOfDay(ms) < 32400000 }

  /** The auditor's own computation of the hour. */
  predicate IsQuietStamp(timestamp: int) {
    var hour := ((timestamp + 19800000) / 3600000) % 24;
    hour >= 21 || hour < 9
  }

  lemma HourOfDay(x: int)
    ensures (x / 3600000) % 24 == (x % 86400000) / 3600000
  {
    var d, m := x / 86400000, x % 86400000;
    assert x == 86400000 * d + m;
    assert x / 3600000 == 24 * d + m / 3600000;
  }

  /** The rule calls exactly the instants of that interval quiet, and the auditor
      agrees with it at every instant. */
  lemma QuietExactlyWhen(ms: int)
    ensures IsQuietHour(ms) <==> Quiet(ms)
    ensures IsQuietStamp(ms) <==> Quiet(ms)
  {
    HourOfDay(ms + 19800000);
  }

  /** Hence do-not-call: the flag, or - unless the clock reads 0 - the hour. */
  lemma DoNotCallExactlyWhen(dnc: bool, now: int)
    ensures IsDoNotCall(dnc, now) <==> dnc || (now != 0 && Quiet(now))
  {
    QuietExactlyWhen(now);
    hide Quiet, IsQuietHour;
  }

  /** A whole number of days later it is the same time of day. */
  lemma SameTimeOfDay(ms: int, days: int)
    ensures TimeOfDay(ms + days * 86400000) == TimeOfDay(ms)
  {
  }
}
