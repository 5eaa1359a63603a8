/**
 How long a request is served, as far as the lane's samples and holds tell.
 */
module ServiceEstimates {
  import opened Common
  import opened Drain
  import opened DrainPrediction
  import opened Ordering

  const MIN_SERVICE_SAMPLES := 3

  datatype Source = Measured | Cold | Inflight

  /** Index of the nearest-rank 0.9 quantile among `n` ordered values. */
  function QuantileRank(n: nat): (i: nat)
    requires n > 0
    ensures i < n && i as real < 0.9 * n as real <= (i + 1) as real
  {
    MinI(n - 1, MaxI(0, Ceil(0.9 * n as real) - 1))
  }

  function Ages(holds: seq<real>, now: real): (a: seq<real>)
    ensures |a| == |holds|
  {
    Sorted(seq(|holds|, i requires 0 <= i < |holds| => MaxR(0.0, now - holds[i])))
  }

  /** The oldest hold is the last age, and no age is negative. */
  lemma AgesBound(holds: seq<real>, now: real)
    ensures forall i :: 0 <= i < |holds| ==> 0.0 <= now - holds[i] ==> now - holds[i] <= Ages(holds, now)[|holds| - 1]
    ensures forall i :: 0 <= i < |holds| ==> 0.0 <= Ages(holds, now)[i] <= Ages(holds, now)[|holds| - 1]
    ensures holds != [] ==> exists i :: 0 <= i < |holds| && Ages(holds, now)[|holds| - 1] == MaxR(0.0, now - holds[i])
  {
    if holds != [] {
      var raw := seq(|holds|, i requires 0 <= i < |holds| => MaxR(0.0, now - holds[i]));
      forall i | 0 <= i < |holds|
        ensures MaxR(0.0, now - holds[i]) <= Ages(holds, now)[|holds| - 1]
      {
        assert raw[i] == MaxR(0.0, now - holds[i]);
        SortedMax(raw, i);
      }
      SortedWithin(raw, 0.0, Ages(holds, now)[|holds| - 1]);
      SortedMultiset(raw);
      assert Ages(holds, now)[|holds| - 1] in multiset(raw);
      var k :| 0 <= k < |raw| && raw[k] == Ages(holds, now)[|holds| - 1];
    }
  }

  function Typical(samples: seq<real>, coldDefault: real): real {
    MaxR(MIN_SERVICE_TIME_S,
         if |samples| >= MIN_SERVICE_SAMPLES then Sorted(samples)[QuantileRank(|samples|)] else coldDefault)
  }

  /** Nine tenths of the measured samples took no longer than the typical time, and no shorter
      time would do; a lane that has not measured itself goes by its default. */
  lemma TypicalIsQuantile(samples: seq<real>, coldDefault: real)
    ensures var typical := Typical(samples, coldDefault);
            && typical >= MIN_SERVICE_TIME_S
            && (|samples| >= MIN_SERVICE_SAMPLES ==>
                  && AtMost(samples, typical) as real >= 0.9 * |samples| as real
                  && (typical > MIN_SERVICE_TIME_S ==> Below(samples, typical) as real < 0.9 * |samples| as real
                                                       && typical in samples))
            && (|samples| < MIN_SERVICE_SAMPLES ==> typical == MaxR(MIN_SERVICE_TIME_S, coldDefault))
  {
    if |samples| >= MIN_SERVICE_SAMPLES {
      var i := QuantileRank(|samples|);
      var v := Sorted(samples)[i];
      RankCounts(samples, i, v);
      AtMostMonotone(samples, v, Typical(samples, coldDefault));
    }
  }

  datatype Service = Service(time: real, residuals: seq<real>, source: Source)

  function ServiceEstimate(samples: seq<real>, holds: seq<real>, now: real, coldDefault: real): Service {
    var typical := Typical(samples, coldDefault);
    var ages := Ages(holds, now);
    var base := if |samples| >= MIN_SERVICE_SAMPLES then Measured else Cold;
    var overdue := ages != [] && ages[|ages| - 1] > typical;
    var time := MaxR(MIN_SERVICE_TIME_S, if overdue then ages[|ages| - 1] else typical);
    Service(time,
            seq(|ages|, i requires 0 <= i < |ages| => if ages[i] < typical then typical - ages[i] else time),
            if overdue then Inflight else base)
  }

  /** How long each hold is still expected to run: what is left of a typical time for one younger
      than that, the whole service time for any other. */
  ghost predicate LeftOf(holds: seq<real>, now: real, typical: real, time: real, left: seq<real>) {
    && |left| == |holds|
    && forall i :: 0 <= i < |holds| ==>
         if MaxR(0.0, now - holds[i]) < typical then MaxR(0.0, now - holds[i]) + left[i] == typical else left[i] == time
  }

  ghost function Left(age: real, typical: real, time: real): real {
    if age < typical then typical - age else time
  }

  /** The multiset of what is left of services of these ages. */
  ghost function AllLeft(ages: seq<real>, typical: real, time: real): multiset<real> {
    if ages == [] then multiset{}
    else AllLeft(ages[1..], typical, time) + multiset{Left(ages[0], typical, time)}
  }

  lemma {:induction false} InsertLeft(ages: seq<real>, age: real, typical: real, time: real)
    ensures AllLeft(Insert(ages, age), typical, time) == AllLeft(ages, typical, time) + multiset{Left(age, typical, time)}
  {
    var r := Insert(ages, age);
    if ages == [] || age <= ages[0] {
      assert r[1..] == ages;
    } else {
      InsertLeft(ages[1..], age, typical, time);
      assert r[1..] == Insert(ages[1..], age);
    }
  }

  lemma {:induction false} SnocLeft(ages: seq<real>, age: real, typical: real, time: real)
    ensures AllLeft(ages + [age], typical, time) == AllLeft(ages, typical, time) + multiset{Left(age, typical, time)}
  {
    var r := ages + [age];
    if ages == [] {
      assert r[1..] == [];
    } else {
      SnocLeft(ages[1..], age, typical, time);
      assert r[1..] == ages[1..] + [age];
    }
  }

  /** Putting ages in order changes nothing about what is left of them. */
  lemma {:induction false} SortedLeft(ages: seq<real>, typical: real, time: real)
    ensures AllLeft(Sorted(ages), typical, time) == AllLeft(ages, typical, time)
  {
    if ages != [] {
      var init, last := ages[..|ages| - 1], ages[|ages| - 1];
      SortedLeft(init, typical, time);
      LastLeft(init, last, Sorted(init), typical, time);
      assert ages == init + [last];
    }
  }

  lemma LastLeft(init: seq<real>, last: real, sorted: seq<real>, typical: real, time: real)
    requires AllLeft(sorted, typical, time) == AllLeft(init, typical, time)
    ensures AllLeft(Insert(sorted, last), typical, time) == AllLeft(init + [last], typical, time)
  {
    InsertLeft(sorted, last, typical, time);
    SnocLeft(init, last, typical, time);
  }

  lemma {:induction false} ListLeft(ages: seq<real>, typical: real, time: real, left: seq<real>)
    requires |left| == |ages| && forall i :: 0 <= i < |ages| ==> left[i] == Left(ages[i], typical, time)
    ensures multiset(left) == AllLeft(ages, typical, time)
  {
    if ages != [] {
      ListLeft(ages[1..], typical, time, left[1..]);
      assert left == [left[0]] + left[1..];
    }
  }

  lemma ResidualsOfHolds(samples: seq<real>, holds: seq<real>, now: real, coldDefault: real)
    ensures var s := ServiceEstimate(samples, holds, now, coldDefault);
            exists left :: LeftOf(holds, now, Typical(samples, coldDefault), s.time, left)
                           && multiset(left) == multiset(s.residuals)
  {
    var s := ServiceEstimate(samples, holds, now, coldDefault);
    var left := HoldsLeft(holds, now, Typical(samples, coldDefault), s.time, s.residuals);
  }

  lemma HoldsLeft(holds: seq<real>, now: real, typical: real, time: real, residuals: seq<real>) returns (left: seq<real>)
    requires |residuals| == |holds|
    requires forall i :: 0 <= i < |holds| ==> residuals[i] == Left(Ages(holds, now)[i], typical, time)
    ensures LeftOf(holds, now, typical, time, left) && multiset(left) == multiset(residuals)
  {
    var raw := seq(|holds|, i requires 0 <= i < |holds| => MaxR(0.0, now - holds[i]));
    left := seq(|holds|, i requires 0 <= i < |holds| => Left(raw[i], typical, time));
    SortedLeft(raw, typical, time);
    ListLeft(raw, typical, time, left);
    ListLeft(Sorted(raw), typical, time, residuals);
  }

  /** Main result: the residuals are, hold by hold, what is left of a typical time or one whole
      service; the service time is typical unless some slot has been held longer, and is then the
      longest such hold.  So no slot is modelled to free instantly or to outlast one service. */
  lemma ServiceEstimateBounds(samples: seq<real>, holds: seq<real>, now: real, coldDefault: real)
    ensures var s := ServiceEstimate(samples, holds, now, coldDefault);
            var typical := Typical(samples, coldDefault);
            var overdue := exists i :: 0 <= i < |holds| && now - holds[i] > typical;
            && (exists left :: LeftOf(holds, now, typical, s.time, left) && multiset(left) == multiset(s.residuals))
            && |s.residuals| == |holds|
            && s.time >= MIN_SERVICE_TIME_S
            && (forall i :: 0 <= i < |holds| ==> 0.0 < s.residuals[i] <= s.time)
            && (forall i :: 0 <= i < |holds| ==> now - holds[i] <= s.time)
            && (!overdue ==> s.time == typical)
            && (overdue ==> exists i :: 0 <= i < |holds| && now - holds[i] == s.time)
            && s.source == (if overdue then Inflight else if |samples| >= MIN_SERVICE_SAMPLES then Measured else Cold)
  {
    AgesBound(holds, now);
    ResidualsOfHolds(samples, holds, now, coldDefault);
  }

  /** The predictor's clamping of residuals never alters an estimate of its own. */
  lemma ClampingIsIdentity(samples: seq<real>, holds: seq<real>, now: real, coldDefault: real)
    ensures var s := ServiceEstimate(samples, holds, now, coldDefault);
            s.time > 0.0 && Clamped(s.residuals, s.time) == s.residuals
  {
    ServiceEstimateBounds(samples, holds, now, coldDefault);
  }
}
