/**
 * Per-fingerprint request counting for JA3 TLS fingerprints: a fingerprint
 * seen more than 50 times is reported as a bot and put on the block list.
 */
module BotDetection {

  const Threshold: int := 50

  /** The key a sum over a map takes out first */
  ghost function Pick(m: map<string, int>): (k: string)
    requires |m| > 0
    ensures k in m
  {
    var k :| k in m; k
  }

  /** Sum of the values of a map */
  ghost function SumValues(m: map<string, int>): int
    decreases |m|
  {
    if |m| == 0 then 0 else m[Pick(m)] + SumValues(m - {Pick(m)})
  }

  /** The sum does not depend on which key is taken out first */
  lemma {:induction false} SumValuesRemove(m: map<string, int>, k: string)
    requires k in m
    ensures SumValues(m) == m[k] + SumValues(m - {k})
    decreases |m|
  {
    var j := Pick(m);
    if j != k {
      SumValuesRemove(m - {j}, k);
      SumValuesRemove(m - {k}, j);
      assert m - {j} - {k} == m - {k} - {j};
    }
  }

  /** Replacing one value changes the sum by the difference */
  lemma SumValuesUpdate(m: map<string, int>, k: string, v: int)
    ensures SumValues(m[k := v]) == SumValues(m) - (if k in m then m[k] else 0) + v
  {
    SumValuesRemove(m[k := v], k);
    assert m[k := v] - {k} == m - {k};
    if k in m {
      SumValuesRemove(m, k);
    } else {
      assert m - {k} == m;
    }
  }

  /** Number of calls made with fingerprint f */
  ghost function Calls(requests: seq<string>, f: string): nat
  {
    if requests == [] then 0
    else Calls(requests[..|requests| - 1], f) + (if requests[|requests| - 1] == f then 1 else 0)
  }

  lemma CallsAppend(requests: seq<string>, ja3: string, f: string)
    ensures Calls(requests + [ja3], f) == Calls(requests, f) + (if f == ja3 then 1 else 0)
  {
    assert (requests + [ja3])[..|requests|] == requests;
  }

  /** A fingerprint has been counted iff it occurs among the calls */
  lemma {:induction false} CallsPositive(requests: seq<string>, f: string)
    ensures Calls(requests, f) > 0 <==> f in requests
  {
    if requests != [] {
      var prev := requests[..|requests| - 1];
      CallsPositive(prev, f);
      assert requests == prev + [requests[|requests| - 1]];
    }
  }

  /** Each seen fingerprint is counted once per call */
  ghost predicate CountsMatch(hitCounter: map<string, int>, requests: seq<string>) {
    && (forall f :: f in hitCounter <==> Calls(requests, f) > 0)
    && (forall f :: f in hitCounter ==> hitCounter[f] == Calls(requests, f))
  }

  /** The block list holds exactly the fingerprints counted more than Threshold times */
  ghost predicate BlockedMatch(hitCounter: map<string, int>, blockedList: map<string, bool>) {
    && (forall f :: f in blockedList <==> f in hitCounter && hitCounter[f] > Threshold)
    && (forall f :: f in blockedList ==> blockedList[f])
  }

  /** The counter state a sequence of calls leaves behind */
  ghost predicate Consistent(hitCounter: map<string, int>, firstSeen: map<string, int>,
                             blockedList: map<string, bool>, requests: seq<string>)
  {
    && hitCounter.Keys == firstSeen.Keys
    && CountsMatch(hitCounter, requests)
    && BlockedMatch(hitCounter, blockedList)
    && SumValues(hitCounter) == |requests|
  }

  /** Counting one more call keeps every count equal to the number of calls */
  lemma CountsStep(hitCounter: map<string, int>, requests: seq<string>, ja3: string, count: int)
    requires CountsMatch(hitCounter, requests)
    requires count == (if ja3 in hitCounter then hitCounter[ja3] else 0) + 1
    ensures count == Calls(requests + [ja3], ja3)
    ensures CountsMatch(hitCounter[ja3 := count], requests + [ja3])
  {
    forall f ensures Calls(requests + [ja3], f) == Calls(requests, f) + (if f == ja3 then 1 else 0) {
      CallsAppend(requests, ja3, f);
    }
  }

  /** Blocking at the threshold keeps the block list equal to the over-threshold fingerprints */
  lemma BlockedStep(hitCounter: map<string, int>, blockedList: map<string, bool>, ja3: string, count: int)
    requires BlockedMatch(hitCounter, blockedList)
    requires count == (if ja3 in hitCounter then hitCounter[ja3] else 0) + 1
    ensures BlockedMatch(hitCounter[ja3 := count], if count > Threshold then blockedList[ja3 := true] else blockedList)
  {
  }

  /** One isBot call keeps the counters consistent with the calls made */
  lemma IsBotStep(hitCounter: map<string, int>, firstSeen: map<string, int>,
                  blockedList: map<string, bool>, requests: seq<string>, ja3: string,
                  count: int, seen: map<string, int>)
    requires Consistent(hitCounter, firstSeen, blockedList, requests)
    requires count == (if ja3 in hitCounter then hitCounter[ja3] else 0) + 1
    requires seen.Keys == firstSeen.Keys + {ja3}
    ensures count == Calls(requests + [ja3], ja3)
    ensures Consistent(hitCounter[ja3 := count], seen,
                       if count > Threshold then blockedList[ja3 := true] else blockedList,
                       requests + [ja3])
  {
    CountsStep(hitCounter, requests, ja3, count);
    BlockedStep(hitCounter, blockedList, ja3, count);
    SumValuesUpdate(hitCounter, ja3, count);
  }

  datatype Stats = Stats(uniqueFingerprints: nat, blockedBots: nat, totalRequests: int, details: map<string, int>)

  class BotDetectionService {
    var hitCounter: map<string, int>
    var firstSeen: map<string, int>
    var blockedList: map<string, bool>
    /** Every fingerprint passed to IsBot, in call order */
    ghost var requests: seq<string>

    /**
     * Each seen fingerprint has a first-seen time and a count equal to its
     * number of calls; the block list holds exactly the fingerprints counted
     * more than Threshold times; the counts sum to the number of calls.
     */
    ghost predicate Valid()
      reads this
    {
      Consistent(hitCounter, firstSeen, blockedList, requests)
    }

    constructor ()
      ensures Valid()
      ensures hitCounter == map[] && firstSeen == map[] && blockedList == map[] && requests == []
    {
      hitCounter := map[];
      firstSeen := map[];
      blockedList := map[];
      requests := [];
    }

    /**
     * Counts one more request for the fingerprint, records when it was first
     * seen (now is the clock reading), and reports a bot from the 51st call
     * on, blocking it.
     */
    method IsBot(ja3: string, now: int) returns (bot: bool)
      requires Valid()
      modifies this
      ensures Valid()
      ensures requests == old(requests) + [ja3]
      ensures hitCounter == old(hitCounter)[ja3 := (if ja3 in old(hitCounter) then old(hitCounter)[ja3] else 0) + 1]
      ensures bot <==> Calls(requests, ja3) > Threshold
      ensures firstSeen == if ja3 in old(firstSeen) then old(firstSeen) else old(firstSeen)[ja3 := now]
      ensures blockedList == if bot then old(blockedList)[ja3 := true] else old(blockedList)
      ensures old(blockedList).Keys <= blockedList.Keys
    {
      // firstSeen.putIfAbsent, then hitCounter.merge, then the threshold test
      var seen := if ja3 in firstSeen then firstSeen else firstSeen[ja3 := now];
      var count := (if ja3 in hitCounter then hitCounter[ja3] else 0) + 1;
      var hits := hitCounter[ja3 := count];
      bot := count > Threshold;
      var blocked := if bot then blockedList[ja3 := true] else blockedList;
      IsBotStep(hitCounter, firstSeen, blockedList, requests, ja3, count, seen);
      firstSeen, hitCounter, blockedList, requests := seen, hits, blocked, requests + [ja3];
    }

    /** The number of distinct fingerprints, blocked fingerprints, and calls so far */
    method GetStats() returns (stats: Stats)
      requires Valid()
      ensures stats.uniqueFingerprints == |set f | f in requests|
      ensures stats.blockedBots == |set f | f in hitCounter && hitCounter[f] > Threshold|
      ensures stats.totalRequests == |requests|
      ensures stats.details == hitCounter
    {
      var total := 0;
      var rest := hitCounter;
      while |rest| > 0
        invariant total + SumValues(rest) == SumValues(hitCounter)
        decreases |rest|
      {
        var k :| k in rest;
        SumValuesRemove(rest, k);
        total := total + rest[k];
        rest := rest - {k};
      }
      forall f ensures f in hitCounter <==> f in requests {
        CallsPositive(requests, f);
      }
      assert hitCounter.Keys == set f | f in requests;
      assert blockedList.Keys == set f | f in hitCounter && hitCounter[f] > Threshold;
      stats := Stats(|hitCounter|, |blockedList|, total, hitCounter);
    }
  }
}
