/**
 * The id of a missed-check-in ledger document: the subject's id, an
 * underscore, and the millisecond value of the `lastCheckIn` the alert is
 * about (server.js:439). Being a function of exactly these two values is what
 * makes the ledger an idempotency guard per episode.
 */
module AlertKeys {
  import opened Wrappers
  import Decimal

  function AlertKey(userId: string, lastCheckInMs: int): string {
    userId + "_" + Decimal.IntText(lastCheckInMs)
  }

  /** Position of the last `c` in `s`, or -1 when there is none. */
  function LastIndexOf(s: string, c: char): (i: int)
    ensures -1 <= i < |s|
    ensures 0 <= i ==> s[i] == c && c !in s[i + 1..]
    ensures i < 0 ==> c !in s
  {
    if s == [] then -1
    else if s[|s| - 1] == c then |s| - 1
    else
      var i := LastIndexOf(s[..|s| - 1], c);
      assert i >= 0 ==> s[i + 1..] == s[..|s| - 1][i + 1..] + [s[|s| - 1]];
      assert s == s[..|s| - 1] + [s[|s| - 1]];
      i
  }

  /** Reads a key back into the subject id and the timestamp. */
  function ParseAlertKey(key: string): Option<(string, int)> {
    var i := LastIndexOf(key, '_');
    if i < 0 || !Decimal.IsIntText(key[i + 1..]) then None
    else Some((key[..i], Decimal.ParseInt(key[i + 1..])))
  }

  lemma ParseAlertKeyRoundTrip(userId: string, lastCheckInMs: int)
    ensures ParseAlertKey(AlertKey(userId, lastCheckInMs)) == Some((userId, lastCheckInMs))
  {
    var digits := Decimal.IntText(lastCheckInMs);
    var key := AlertKey(userId, lastCheckInMs);
    assert '_' !in digits;
    var i := LastIndexOf(key, '_');
    assert key[|userId|] == '_';
    assert i == |userId|;
    assert key[..i] == userId;
    assert key[i + 1..] == digits;
    Decimal.IntTextRoundTrip(lastCheckInMs);
  }

  /**
   * Distinct (subject, lastCheckIn) pairs give distinct keys: a subject who
   * checks in again starts a new episode with a key of its own, and two
   * subjects never share a key.
   */
  lemma AlertKeyInjective(u1: string, t1: int, u2: string, t2: int)
    requires AlertKey(u1, t1) == AlertKey(u2, t2)
    ensures u1 == u2 && t1 == t2
  {
    ParseAlertKeyRoundTrip(u1, t1);
    ParseAlertKeyRoundTrip(u2, t2);
  }
}
