/**
 * The dashboard's academic-session arithmetic: which session the student pays
 * next, derived from the payment history, and whether the pay button is
 * disabled for it. Labels have the form "YYYY/YYYY".
 */
module Session {
  import opened Js
  import opened Types

  /** The session shown before any history has been loaded. */
  const InitialSession: string := "2025/2026"

  /** The only purpose that advances the session. */
  const SchoolFees: string := "School Fees"

  /** `text.split("/")[0]`: everything before the first slash. */
  function BeforeFirstSlash(text: string): (r: string)
    ensures |r| <= |text| && r == text[..|r|]
    ensures forall i :: 0 <= i < |r| ==> r[i] != '/'
    ensures |r| < |text| ==> text[|r|] == '/'
  {
    if text == [] || text[0] == '/' then [] else [text[0]] + BeforeFirstSlash(text[1..])
  }

  /** `parseInt(text.split("/")[0])`. */
  function StartYear(text: string): JsNumber
  {
    ParseInt(BeforeFirstSlash(text))
  }

  /** `history.filter(p => p.purpose === "School Fees")`. */
  function SchoolFeePayments(history: seq<Payment>): (r: seq<Payment>)
    ensures forall p :: p in r <==> p in history && p.purpose == SchoolFees
  {
    if history == [] then []
    else if history[0].purpose == SchoolFees then [history[0]] + SchoolFeePayments(history[1..])
    else SchoolFeePayments(history[1..])
  }

  /** `payments.map(p => parseInt(p.session.split("/")[0]))`. */
  function StartYears(payments: seq<Payment>): (r: seq<JsNumber>)
    ensures |r| == |payments|
    ensures forall i :: 0 <= i < |r| ==> r[i] == StartYear(payments[i].session)
  {
    seq(|payments|, i requires 0 <= i < |payments| => StartYear(payments[i].session))
  }

  /** `${maxYear + 1}/${maxYear + 2}`. */
  function NextSessionLabel(maxYear: JsNumber): string
  {
    NumberToString(Add(maxYear, 1)) + "/" + NumberToString(Add(maxYear, 2))
  }

  /**
   * The active session once the history has loaded: the session after the
   * latest school-fees session paid, or `current` when none was paid.
   */
  function ActiveSessionAfter(history: seq<Payment>, current: string): string
  {
    if |history| > 0 then
      var fees := SchoolFeePayments(history);
      if |fees| > 0 then NextSessionLabel(Max(StartYears(fees))) else current
    else current
  }

  /** The pay button's `disabled` attribute: `parseInt(start) >= currentYear` (false for NaN). */
  function PayDisabled(activeSession: string, currentYear: int): bool
  {
    match StartYear(activeSession)
    case Num(y) => y >= currentYear
    case NaN => false
  }

  // ---------------------------------------------------------------------------
  // Properties

  /** `m` is the largest start year among the school-fees payments, and all of them parse. */
  ghost predicate IsLatestSchoolFeesYear(history: seq<Payment>, m: int)
  {
    && (exists p :: p in history && p.purpose == SchoolFees && StartYear(p.session) == Num(m))
    && (forall p :: p in history && p.purpose == SchoolFees ==>
                    StartYear(p.session).Num? && StartYear(p.session).value <= m)
  }

  lemma {:induction false} BeforeSlashOfJoined(first: string, second: string)
    requires forall i :: 0 <= i < |first| ==> first[i] != '/'
    ensures BeforeFirstSlash(first + "/" + second) == first
  {
    if first != [] {
      assert (first + "/" + second)[1..] == first[1..] + "/" + second;
      BeforeSlashOfJoined(first[1..], second);
    }
  }

  /** The label of the session after `m` reads back as starting in `m + 1`. */
  lemma StartYearOfNextSession(m: int)
    ensures StartYear(NextSessionLabel(Num(m))) == Num(m + 1)
  {
    var first := IntToString(m + 1);
    IntToStringHasNoSlash(m + 1);
    BeforeSlashOfJoined(first, IntToString(m + 2));
    ParseIntOfIntToString(m + 1, []);
    assert first + [] == first;
  }

  /** The `Math.max` of the school-fees start years is the latest year. */
  lemma MaxIsLatestYear(history: seq<Payment>, m: int)
    requires IsLatestSchoolFeesYear(history, m)
    ensures |history| > 0 && |SchoolFeePayments(history)| > 0
    ensures Max(StartYears(SchoolFeePayments(history))) == Num(m)
  {
    var fees := SchoolFeePayments(history);
    var p :| p in history && p.purpose == SchoolFees && StartYear(p.session) == Num(m);
    assert p in fees;
    assert |history| > 0;
    var j :| 0 <= j < |fees| && fees[j] == p;
    var years := StartYears(fees);
    forall k | 0 <= k < |years|
      ensures years[k].Num? && years[k].value <= m
    {
      var q := fees[k];
      assert q in fees;
      LatestBoundsEach(history, m, q);
      assert years[k] == StartYear(q.session);
    }
    MaxIsBound(years, j, m);
  }

  /** The latest school-fees year bounds the start year of each school-fees payment. */
  lemma LatestBoundsEach(history: seq<Payment>, m: int, q: Payment)
    requires IsLatestSchoolFeesYear(history, m)
    requires q in history && q.purpose == SchoolFees
    ensures StartYear(q.session).Num? && StartYear(q.session).value <= m
  {
  }

  /** With a latest school-fees year `m`, the active session becomes "(m+1)/(m+2)". */
  lemma ActiveSessionFollowsLatest(history: seq<Payment>, current: string, m: int)
    requires IsLatestSchoolFeesYear(history, m)
    ensures ActiveSessionAfter(history, current) == IntToString(m + 1) + "/" + IntToString(m + 2)
  {
    SessionAfterLatest(history, current, m);
    NextSessionSpelling(m);
  }

  /** With a latest school-fees year `m`, the active session is the label that follows m. */
  lemma SessionAfterLatest(history: seq<Payment>, current: string, m: int)
    requires IsLatestSchoolFeesYear(history, m)
    ensures ActiveSessionAfter(history, current) == NextSessionLabel(Num(m))
  {
    MaxIsLatestYear(history, m);
  }

  /** The label that follows a start year m is "(m+1)/(m+2)". */
  lemma NextSessionSpelling(m: int)
    ensures NextSessionLabel(Num(m)) == IntToString(m + 1) + "/" + IntToString(m + 2)
  {
  }

  /** Each school-fees start year is bounded by the `Math.max` of them all. */
  lemma BoundedByMax(history: seq<Payment>, q: Payment)
    requires |SchoolFeePayments(history)| > 0
    requires q in history && q.purpose == SchoolFees
    requires Max(StartYears(SchoolFeePayments(history))).Num?
    ensures StartYear(q.session).Num?
    ensures StartYear(q.session).value <= Max(StartYears(SchoolFeePayments(history))).value
  {
    var fees := SchoolFeePayments(history);
    var years := StartYears(fees);
    assert q in fees;
    var f :| 0 <= f < |fees| && fees[f] == q;
    MaxBounds(years, f);
    assert years[f] == StartYear(q.session);
  }

  /** When every school-fees session parses, some latest year exists. */
  lemma LatestSchoolFeesYearExists(history: seq<Payment>)
    requires exists p :: p in history && p.purpose == SchoolFees
    requires forall p :: p in history && p.purpose == SchoolFees ==> StartYear(p.session).Num?
    ensures exists m :: IsLatestSchoolFeesYear(history, m)
  {
    var fees := SchoolFeePayments(history);
    var p :| p in history && p.purpose == SchoolFees;
    assert p in fees;
    var years := StartYears(fees);
    forall k | 0 <= k < |years| ensures years[k].Num? {
      assert fees[k] in fees;
    }
    var k := MaxOfNumbers(years);
    var top := years[k];
    assert fees[k] in fees;
    assert fees[k] in history && fees[k].purpose == SchoolFees;
    assert StartYear(fees[k].session) == top;
    forall q | q in history && q.purpose == SchoolFees
      ensures StartYear(q.session).Num? && StartYear(q.session).value <= top.value
    {
      BoundedByMax(history, q);
    }
    assert IsLatestSchoolFeesYear(history, top.value);
  }

  /** Without any school-fees payment, the active session stays what it was. */
  lemma NoSchoolFeesKeepsSession(history: seq<Payment>, current: string)
    requires forall i :: 0 <= i < |history| ==> history[i].purpose != SchoolFees
    ensures ActiveSessionAfter(history, current) == current
  {
  }

  lemma {:induction false} SchoolFeePaymentsIdempotent(history: seq<Payment>)
    ensures SchoolFeePayments(SchoolFeePayments(history)) == SchoolFeePayments(history)
  {
    if history != [] {
      SchoolFeePaymentsIdempotent(history[1..]);
      if history[0].purpose == SchoolFees {
        var r := [history[0]] + SchoolFeePayments(history[1..]);
        assert r[1..] == SchoolFeePayments(history[1..]);
      }
    }
  }

  /** Payments with any other purpose never affect the active session. */
  lemma OtherPurposesIgnored(history: seq<Payment>, current: string)
    ensures ActiveSessionAfter(history, current)
         == ActiveSessionAfter(SchoolFeePayments(history), current)
  {
    SchoolFeePaymentsIdempotent(history);
  }

  /** One unreadable school-fees session makes the `Math.max` of them all NaN. */
  lemma MaxIsNaN(history: seq<Payment>, p: Payment)
    requires p in history && p.purpose == SchoolFees && StartYear(p.session).NaN?
    ensures |history| > 0 && |SchoolFeePayments(history)| > 0
    ensures Max(StartYears(SchoolFeePayments(history))) == NaN
  {
    var fees := SchoolFeePayments(history);
    assert p in fees;
    var j :| 0 <= j < |fees| && fees[j] == p;
    assert StartYears(fees)[j].NaN?;
  }

  /** An unreadable school-fees session turns the label into "NaN/NaN", which enables the pay button. */
  lemma UnreadableSessionEnablesPay(history: seq<Payment>, p: Payment, current: string, currentYear: int)
    requires p in history && p.purpose == SchoolFees && StartYear(p.session).NaN?
    ensures ActiveSessionAfter(history, current) == NaNSession
    ensures !PayDisabled(ActiveSessionAfter(history, current), currentYear)
  {
    MaxIsNaN(history, p);
    NaNSessionEnablesPay(currentYear);
  }

  /** What `${NaN + 1}/${NaN + 2}` renders as. */
  const NaNSession: string := "NaN/NaN"

  lemma NaNSessionEnablesPay(currentYear: int)
    ensures NextSessionLabel(NaN) == NaNSession
    ensures !PayDisabled(NaNSession, currentYear)
  {
    var nan := NumberToString(NaN);
    BeforeSlashOfJoined(nan, nan);
    ParseIntOfNonNumeric(nan);
  }

  /** After the history loads, the pay button is disabled exactly when m + 1 >= the current year. */
  lemma PayGuardAfterHistory(history: seq<Payment>, current: string, m: int, currentYear: int)
    requires IsLatestSchoolFeesYear(history, m)
    ensures PayDisabled(ActiveSessionAfter(history, current), currentYear) <==> m + 1 >= currentYear
  {
    SessionAfterLatest(history, current, m);
    StartYearOfNextSession(m);
  }

  /** Before any history, the pay button is disabled until the current year is later than 2025. */
  lemma InitialPayGuard(currentYear: int)
    ensures PayDisabled(InitialSession, currentYear) <==> 2025 >= currentYear
  {
    assert NatToDigits(20) == NatToDigits(2) + "0";
    assert NatToDigits(202) == NatToDigits(20) + "2";
    assert NatToDigits(2025) == NatToDigits(202) + "5";
    assert InitialSession == NatToDigits(2025) + "/" + "2026";
    BeforeSlashOfJoined(NatToDigits(2025), "2026");
    ParseIntOfNatToDigits(2025, []);
    assert NatToDigits(2025) + [] == NatToDigits(2025);
  }
}
