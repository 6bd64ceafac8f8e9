/** Rules a stored bar must satisfy, and their vectorised form (trader/data/bar_quality.py). */
module BarQuality {
  import opened Common
  import opened Numbers

  datatype Bar = Bar(ts: Num, open: Num, high: Num, low: Num, close: Num, volume: Num)

  datatype Field = OpenField | HighField | LowField | CloseField

  datatype Rule =
    | EmptyBar | OhlcPartiallyMissing | VolumeNotFinite | NonPositivePrice(field: Field) | NegativeVolume
    | HighBelowLow | HighNotHighest | LowNotLowest
    | TimestampNotFinite | TimestampsOutOfOrder | DuplicateTimestamp

  datatype Severity = Error | Warn

  datatype Finding = Finding(rule: Rule, severity: Severity, index: nat)

  const FIELDS: seq<Field> := [OpenField, HighField, LowField, CloseField]

  function Price(bar: Bar, f: Field): Num {
    match f
    case OpenField => bar.open
    case HighField => bar.high
    case LowField => bar.low
    case CloseField => bar.close
  }

  /** A bar with no price at all: a placeholder, not a corrupt bar. */
  predicate IsPlaceholder(bar: Bar) {
    forall f: Field :: !Price(bar, f).Fin?
  }

  /** No market can have printed this bar. */
  predicate Impossible(bar: Bar) {
    && !IsPlaceholder(bar)
    && !(&& bar.volume.Fin? && bar.volume.x >= 0.0
         && (forall f: Field :: Price(bar, f).Fin? && Price(bar, f).x > 0.0)
         && (forall f: Field :: Le(bar.low, Price(bar, f)) && Le(Price(bar, f), bar.high)))
  }

  /** What each rule about a single bar says is wrong with it. */
  predicate Violates(bar: Bar, rule: Rule) {
    match rule
    case EmptyBar => IsPlaceholder(bar)
    case OhlcPartiallyMissing => !IsPlaceholder(bar) && exists f: Field :: !Price(bar, f).Fin?
    case VolumeNotFinite => !bar.volume.Fin?
    case NonPositivePrice(f) => Le(Price(bar, f), Fin(0.0))
    case NegativeVolume => Lt(bar.volume, Fin(0.0))
    case HighBelowLow => Lt(bar.high, bar.low)
    case HighNotHighest => Lt(bar.high, bar.open) || Lt(bar.high, bar.close)
    case LowNotLowest => Lt(bar.open, bar.low) || Lt(bar.close, bar.low)
    case _ => false
  }

  ghost predicate HasError(out: seq<Finding>) {
    exists f :: f in out && f.severity == Error
  }

  /** The rules are tried in groups; once a group has found something, later groups are skipped. */
  function Group(rule: Rule): nat {
    match rule
    case EmptyBar => 0
    case OhlcPartiallyMissing => 1
    case VolumeNotFinite => 1
    case NonPositivePrice(_) => 2
    case NegativeVolume => 2
    case _ => 3
  }

  function SeverityOf(rule: Rule): Severity {
    if rule == EmptyBar then Warn else Error
  }

  /** A broken rule that no rule of an earlier group forestalls. */
  ghost predicate Reported(bar: Bar, rule: Rule) {
    Violates(bar, rule) && forall earlier :: Group(earlier) < Group(rule) ==> !Violates(bar, earlier)
  }

  ghost predicate Exact(out: seq<Finding>, bar: Bar, index: nat) {
    && (forall f :: f in out ==> f.index == index && f.severity == SeverityOf(f.rule))
    && (forall rule :: Finding(rule, SeverityOf(rule), index) in out <==> Reported(bar, rule))
  }

  /** Just the broken rules of one group. */
  ghost predicate FindsGroup(out: seq<Finding>, bar: Bar, index: nat, group: nat) {
    && (forall f :: f in out ==> f.index == index && f.severity == Error && Group(f.rule) == group)
    && (forall rule :: Group(rule) == group ==> (Finding(rule, Error, index) in out <==> Violates(bar, rule)))
  }

  method MissingPrices(bar: Bar) returns (missing: nat)
    ensures missing == |FIELDS| <==> IsPlaceholder(bar)
    ensures missing == 0 <==> forall f: Field :: Price(bar, f).Fin?
  {
    missing := 0;
    for k := 0 to |FIELDS|
      invariant missing <= k
      invariant missing == k <==> forall j :: 0 <= j < k ==> !Price(bar, FIELDS[j]).Fin?
      invariant missing == 0 <==> forall j :: 0 <= j < k ==> Price(bar, FIELDS[j]).Fin?
    {
      if !IsFinite(Price(bar, FIELDS[k])) {
        missing := missing + 1;
      }
    }
    forall f: Field
      ensures missing == |FIELDS| ==> !Price(bar, f).Fin?
      ensures missing == 0 ==> Price(bar, f).Fin?
    {
      assert Price(bar, FIELDS[Index(f)]) == Price(bar, f);
    }
  }

  method CheckPresence(bar: Bar, index: nat, missing: nat) returns (out: seq<Finding>)
    requires !IsPlaceholder(bar) && (missing == 0 <==> forall f: Field :: Price(bar, f).Fin?)
    ensures FindsGroup(out, bar, index, 1)
  {
    out := [];
    if missing > 0 {
      out := out + [Finding(OhlcPartiallyMissing, Error, index)];
    }
    if !IsFinite(bar.volume) {
      out := out + [Finding(VolumeNotFinite, Error, index)];
    }
  }

  method CheckSigns(bar: Bar, index: nat) returns (out: seq<Finding>)
    ensures FindsGroup(out, bar, index, 2)
  {
    out := [];
    for k := 0 to |FIELDS|
      invariant forall x :: x in out ==> x.index == index && x.severity == Error && x.rule.NonPositivePrice?
      invariant forall f: Field :: Finding(NonPositivePrice(f), Error, index) in out <==>
                  Index(f) < k && Le(Price(bar, f), Fin(0.0))
    {
      assert forall f: Field :: Index(f) == k <==> f == FIELDS[k];
      if Le(Price(bar, FIELDS[k]), Fin(0.0)) {
        out := out + [Finding(NonPositivePrice(FIELDS[k]), Error, index)];
      }
    }
    if Lt(bar.volume, Fin(0.0)) {
      out := out + [Finding(NegativeVolume, Error, index)];
    }
  }

  method CheckCoherence(bar: Bar, index: nat) returns (out: seq<Finding>)
    requires forall f: Field :: Price(bar, f).Fin?
    ensures FindsGroup(out, bar, index, 3)
  {
    out := [];
    assert Price(bar, OpenField).Fin? && Price(bar, CloseField).Fin?;
    if Lt(bar.high, bar.low) {
      out := out + [Finding(HighBelowLow, Error, index)];
    }
    if Lt(bar.high, FMax(bar.open, bar.close)) {
      out := out + [Finding(HighNotHighest, Error, index)];
    }
    if Lt(FMin(bar.open, bar.close), bar.low) {
      out := out + [Finding(LowNotLowest, Error, index)];
    }
  }

  ghost predicate NoneBefore(bar: Bar, group: nat) {
    forall rule :: Group(rule) < group ==> !Violates(bar, rule)
  }

  /** The first group that finds something, or the last, finds all there is to report. */
  lemma GroupIsExact(out: seq<Finding>, bar: Bar, index: nat, group: nat)
    requires 0 < group <= 3 && FindsGroup(out, bar, index, group) && (out != [] || group == 3) && NoneBefore(bar, group)
    ensures Exact(out, bar, index)
  {
    hide Violates;
    if out != [] {
      HeadIn(out);
      assert out[0] == Finding(out[0].rule, Error, index);
    }
  }

  lemma NothingInGroup(out: seq<Finding>, bar: Bar, index: nat, group: nat)
    requires FindsGroup(out, bar, index, group) && out == [] && NoneBefore(bar, group)
    ensures NoneBefore(bar, group + 1)
  {
    hide Violates;
    forall rule | Group(rule) < group + 1
      ensures !Violates(bar, rule)
    {
      assert Group(rule) == group ==> (Finding(rule, Error, index) in out <==> Violates(bar, rule));
    }
  }

  lemma PlaceholderIsExact(bar: Bar, index: nat)
    requires IsPlaceholder(bar)
    ensures Exact([Finding(EmptyBar, Warn, index)], bar, index)
  {
    hide IsPlaceholder;
    assert Violates(bar, EmptyBar) && Group(EmptyBar) == 0;
  }

  lemma PricesArePresent(bar: Bar)
    requires NoneBefore(bar, 2)
    ensures forall f: Field :: Price(bar, f).Fin?
  {
    assert Group(EmptyBar) == 0 && Group(OhlcPartiallyMissing) == 1;
    assert !Violates(bar, EmptyBar) && !Violates(bar, OhlcPartiallyMissing);
  }

  /** A bar that no rule finds fault with could have been printed. */
  lemma FaultlessIsPossible(bar: Bar)
    requires NoneBefore(bar, 4)
    ensures !Impossible(bar)
  {
    PricesArePresent(bar);
    assert !Violates(bar, VolumeNotFinite) && !Violates(bar, NegativeVolume) by {
      assert Group(VolumeNotFinite) == 1 && Group(NegativeVolume) == 2;
    }
    assert !Violates(bar, HighBelowLow) && !Violates(bar, HighNotHighest) && !Violates(bar, LowNotLowest) by {
      assert Group(HighBelowLow) == Group(HighNotHighest) == Group(LowNotLowest) == 3;
    }
    forall f: Field
      ensures Price(bar, f).x > 0.0
    {
      assert Group(NonPositivePrice(f)) == 2;
      assert !Violates(bar, NonPositivePrice(f));
    }
    Coherent(bar);
  }

  /** A rule that is broken by a bar with some price makes the bar impossible. */
  lemma FaultIsImpossible(bar: Bar, rule: Rule)
    requires Violates(bar, rule) && !IsPlaceholder(bar)
    ensures Impossible(bar)
  {
    assert Price(bar, OpenField) == bar.open && Price(bar, CloseField) == bar.close;
    assert Price(bar, HighField) == bar.high && Price(bar, LowField) == bar.low;
  }

  /** Errors are reported exactly for impossible bars. */
  lemma ErrorsMeanImpossible(out: seq<Finding>, bar: Bar, index: nat)
    requires Exact(out, bar, index)
    ensures HasError(out) <==> Impossible(bar)
    ensures IsPlaceholder(bar) ==> forall f :: f in out ==> f.rule == EmptyBar
    ensures out == [] ==> !IsPlaceholder(bar) && !Impossible(bar)
  {
    hide Violates, Impossible;
    EmptyMeansPlaceholder(bar);
    assert Group(EmptyBar) == 0;
    if f :| f in out && f.severity == Error {
      assert f == Finding(f.rule, SeverityOf(f.rule), index);
      FaultIsImpossible(bar, f.rule);
    }
    if Impossible(bar) {
      var rule := FirstFault(bar);
      assert Finding(rule, SeverityOf(rule), index) in out;
    }
    if IsPlaceholder(bar) {
      assert Finding(EmptyBar, SeverityOf(EmptyBar), index) in out;
      forall f | f in out
        ensures f.rule == EmptyBar
      {
        assert f == Finding(f.rule, SeverityOf(f.rule), index);
      }
    }
  }

  lemma EmptyMeansPlaceholder(bar: Bar)
    ensures Violates(bar, EmptyBar) <==> IsPlaceholder(bar)
    ensures Impossible(bar) ==> !IsPlaceholder(bar)
  {
  }

  lemma FirstFault(bar: Bar) returns (rule: Rule)
    requires Impossible(bar)
    ensures rule != EmptyBar && Reported(bar, rule)
  {
    EmptyMeansPlaceholder(bar);
    hide Violates, Impossible;
    if rule' :| Group(rule') == 1 && Violates(bar, rule') {
      rule := rule';
    } else if rule' :| Group(rule') == 2 && Violates(bar, rule') {
      rule := rule';
    } else if rule' :| Group(rule') == 3 && Violates(bar, rule') {
      rule := rule';
    } else {
      assert NoneBefore(bar, 4);
      FaultlessIsPossible(bar);
    }
  }

  /** The findings are exactly the broken rules of the first group that has any; an error is among them exactly when
      no market can have printed the bar. */
  method CheckBar(bar: Bar, index: nat) returns (out: seq<Finding>)
    ensures Exact(out, bar, index)
    ensures HasError(out) <==> Impossible(bar)
    ensures out == [] ==> !IsPlaceholder(bar)
    ensures forall f :: f in out ==> f.index == index && f.severity == SeverityOf(f.rule) && Violates(bar, f.rule)
  {
    out := FindFaults(bar, index);
    ErrorsMeanImpossible(out, bar, index);
    forall f | f in out
      ensures Violates(bar, f.rule)
    {
      assert f == Finding(f.rule, SeverityOf(f.rule), index);
    }
  }

  method FindFaults(bar: Bar, index: nat) returns (out: seq<Finding>)
    ensures Exact(out, bar, index)
  {
    EmptyMeansPlaceholder(bar);
    hide Violates, FindsGroup, Exact;
    var missing := MissingPrices(bar);
    if missing == |FIELDS| {
      PlaceholderIsExact(bar, index);
      return [Finding(EmptyBar, Warn, index)];
    }
    assert NoneBefore(bar, 1);
    out := CheckPresence(bar, index, missing);
    if out != [] {
      GroupIsExact(out, bar, index, 1);
      return;
    }
    NothingInGroup(out, bar, index, 1);
    out := CheckSigns(bar, index);
    if out != [] {
      GroupIsExact(out, bar, index, 2);
      return;
    }
    NothingInGroup(out, bar, index, 2);
    assert NoneBefore(bar, 2);
    PricesArePresent(bar);
    out := CheckCoherence(bar, index);
    GroupIsExact(out, bar, index, 3);
  }

  lemma Coherent(bar: Bar)
    requires forall f: Field :: Price(bar, f).Fin?
    ensures (forall f: Field :: Le(bar.low, Price(bar, f)) && Le(Price(bar, f), bar.high))
            <==> !Lt(bar.high, bar.low) && !Lt(bar.high, FMax(bar.open, bar.close))
                 && !Lt(FMin(bar.open, bar.close), bar.low)
  {
    assert Price(bar, OpenField) == bar.open && Price(bar, CloseField) == bar.close;
    assert Price(bar, HighField) == bar.high && Price(bar, LowField) == bar.low;
  }

  function Index(f: Field): (k: nat)
    ensures k < |FIELDS| && FIELDS[k] == f
  {
    match f
    case OpenField => 0
    case HighField => 1
    case LowField => 2
    case CloseField => 3
  }

  // ------------------------------------------------------------- the fast mask

  /** A cell as stored: absent, not a number, or a number. */
  datatype Cell = Missing | Text | Value(num: Num)

  datatype Cells = Cells(open: Cell, high: Cell, low: Cell, close: Cell, volume: Cell)

  /** A frame may lack the OHLC columns altogether, or just the volume. */
  datatype Frame = Frame(hasOhlc: bool, hasVolume: bool, rows: seq<Cells>)

  function ToNumeric(c: Cell): Num {
    if c.Value? then c.num else NaN
  }

  /** What the slow rules see of a row. */
  function BarOf(c: Cells, ts: Num): Bar {
    Bar(ts, ToNumeric(c.open), ToNumeric(c.high), ToNumeric(c.low), ToNumeric(c.close), ToNumeric(c.volume))
  }

  function One(b: bool): nat {
    if b then 1 else 0
  }

  /** numpy's nan_to_num with nan=1.0; the infinities become huge numbers of their sign. */
  function NanToOne(a: Num): Num {
    if a.NaN? then Fin(1.0) else a
  }

  predicate MaskAt(c: Cells, hasVolume: bool) {
    var o, h, l, cl := ToNumeric(c.open), ToNumeric(c.high), ToNumeric(c.low), ToNumeric(c.close);
    var nFinite := One(IsFinite(o)) + One(IsFinite(h)) + One(IsFinite(l)) + One(IsFinite(cl));
    var allMissing := nFinite == 0;
    var someMissing := 0 < nFinite < 4;
    var bodyHi, bodyLo := FMax(o, cl), FMin(o, cl);
    var nonPositive :=
      || Le(NanToOne(o), Fin(0.0)) || Le(NanToOne(h), Fin(0.0))
      || Le(NanToOne(l), Fin(0.0)) || Le(NanToOne(cl), Fin(0.0));
    var incoherent := Lt(h, l) || Lt(h, bodyHi) || Lt(bodyLo, l);
    var bad := someMissing || (!allMissing && (nonPositive || incoherent));
    var v := ToNumeric(c.volume);
    if hasVolume then bad || (!allMissing && (!IsFinite(v) || Lt(v, Fin(0.0)))) else bad
  }

  function ImpossibleMask(frame: Frame): (mask: seq<bool>)
    ensures |mask| == |frame.rows|
  {
    if !frame.hasOhlc then seq(|frame.rows|, i => false)
    else seq(|frame.rows|, i requires 0 <= i < |frame.rows| => MaskAt(frame.rows[i], frame.hasVolume))
  }

  /** The mask selects exactly the rows the slow rules call errors, whatever is in them. */
  lemma MaskAgreesWithRules(frame: Frame, i: nat, ts: Num)
    requires frame.hasOhlc && frame.hasVolume && i < |frame.rows|
    ensures ImpossibleMask(frame)[i] <==> Impossible(BarOf(frame.rows[i], ts))
  {
    var bar := BarOf(frame.rows[i], ts);
    assert IsPlaceholder(bar) <==>
      !bar.open.Fin? && !bar.high.Fin? && !bar.low.Fin? && !bar.close.Fin? by {
      assert Price(bar, OpenField) == bar.open && Price(bar, HighField) == bar.high;
      assert Price(bar, LowField) == bar.low && Price(bar, CloseField) == bar.close;
    }
    assert Price(bar, OpenField) == bar.open && Price(bar, HighField) == bar.high;
    assert Price(bar, LowField) == bar.low && Price(bar, CloseField) == bar.close;
  }

  /** Without a volume column the mask judges the prices alone; without prices it refuses nothing. */
  lemma MaskWithoutColumns(frame: Frame, i: nat, ts: Num)
    requires i < |frame.rows|
    ensures !frame.hasOhlc ==> !ImpossibleMask(frame)[i]
    ensures frame.hasOhlc && !frame.hasVolume ==>
              (ImpossibleMask(frame)[i]
               <==> Impossible(BarOf(frame.rows[i], ts).(volume := Fin(0.0))))
  {
    var bar := BarOf(frame.rows[i], ts).(volume := Fin(0.0));
    assert Price(bar, OpenField) == bar.open && Price(bar, HighField) == bar.high;
    assert Price(bar, LowField) == bar.low && Price(bar, CloseField) == bar.close;
  }

  // ------------------------------------------------------------------ a series

  /** The readable timestamps, in order. */
  function Times(bars: seq<Bar>): seq<real> {
    if bars == [] then []
    else
      var t := bars[|bars| - 1].ts;
      if t.Fin? then Times(bars[..|bars| - 1]) + [t.x] else Times(bars[..|bars| - 1])
  }

  predicate StrictlyIncreasing(times: seq<real>) {
    forall i, j :: 0 <= i < j < |times| ==> times[i] < times[j]
  }

  /** What each rule about time says is wrong with bar `i`, given the bars before it. */
  predicate Mistimed(bars: seq<Bar>, i: nat, rule: Rule)
    requires i < |bars|
  {
    var before := Times(bars[..i]);
    match rule
    case TimestampNotFinite => !bars[i].ts.Fin?
    case TimestampsOutOfOrder => bars[i].ts.Fin? && before != [] && bars[i].ts.x < before[|before| - 1]
    case DuplicateTimestamp => bars[i].ts.Fin? && bars[i].ts.x in before
    case _ => false
  }

  predicate AboutSequence(rule: Rule) {
    rule.TimestampsOutOfOrder? || rule.DuplicateTimestamp?
  }

  predicate NoErrors(out: seq<Finding>) {
    forall f :: f in out ==> f.severity != Error
  }

  ghost predicate BarsExact(out: seq<Finding>, bars: seq<Bar>, n: nat)
    requires n <= |bars|
  {
    && (forall f :: f in out ==> f.index < n && f.severity == SeverityOf(f.rule))
    && (forall i, rule :: 0 <= i < n ==> (Finding(rule, SeverityOf(rule), i) in out <==> Reported(bars[i], rule)))
  }

  ghost predicate TimesExact(out: seq<Finding>, bars: seq<Bar>, n: nat)
    requires n <= |bars|
  {
    && (forall f :: f in out ==> f.index < n && f.severity == SeverityOf(f.rule))
    && (forall i, rule :: 0 <= i < n ==> (Finding(rule, SeverityOf(rule), i) in out <==> Mistimed(bars, i, rule)))
  }

  method CheckBars(bars: seq<Bar>) returns (out: seq<Finding>)
    ensures BarsExact(out, bars, |bars|)
  {
    hide Reported;
    out := [];
    for i := 0 to |bars|
      invariant BarsExact(out, bars, i)
    {
      var found := CheckBar(bars[i], i);
      out := out + found;
    }
  }

  method CheckTimes(bars: seq<Bar>) returns (out: seq<Finding>)
    ensures TimesExact(out, bars, |bars|)
  {
    out := [];
    var seen: map<real, nat> := map[];
    var previous: Option<real> := None;
    for i := 0 to |bars|
      invariant forall t :: t in seen <==> t in Times(bars[..i])
      invariant previous == if Times(bars[..i]) == [] then None else Some(Times(bars[..i])[|Times(bars[..i])| - 1])
      invariant TimesExact(out, bars, i)
    {
      assert bars[..i + 1][..i] == bars[..i];
      if !IsFinite(bars[i].ts) {
        out := out + [Finding(TimestampNotFinite, Error, i)];
        continue;
      }
      var t := bars[i].ts.x;
      if previous.Some? && t < previous.value {
        out := out + [Finding(TimestampsOutOfOrder, Error, i)];
      }
      if t in seen {
        out := out + [Finding(DuplicateTimestamp, Error, i)];
      } else {
        seen := seen[t := i];
      }
      previous := Some(t);
    }
  }

  /** No bar is out of order or a duplicate exactly when the readable timestamps strictly increase. */
  lemma {:induction false} InOrder(bars: seq<Bar>, n: nat)
    requires n <= |bars|
    ensures StrictlyIncreasing(Times(bars[..n])) <==>
      forall i, rule :: 0 <= i < n && AboutSequence(rule) ==> !Mistimed(bars, i, rule)
  {
    if n > 0 {
      InOrder(bars, n - 1);
      assert bars[..n][..n - 1] == bars[..n - 1];
      if bars[n - 1].ts.Fin? {
        Extending(Times(bars[..n - 1]), bars[n - 1].ts.x);
      }
      if StrictlyIncreasing(Times(bars[..n - 1])) && !StrictlyIncreasing(Times(bars[..n])) {
        assert Mistimed(bars, n - 1, TimestampsOutOfOrder) || Mistimed(bars, n - 1, DuplicateTimestamp);
      } else if StrictlyIncreasing(Times(bars[..n])) {
        assert !Mistimed(bars, n - 1, TimestampsOutOfOrder) && !Mistimed(bars, n - 1, DuplicateTimestamp);
      }
    } else {
      assert Times(bars[..0]) == [];
    }
  }

  /** Exactly the rules that each bar breaks by itself, and by its place in time. */
  ghost predicate SeriesExact(out: seq<Finding>, bars: seq<Bar>) {
    && (forall f :: f in out ==> f.index < |bars| && f.severity == SeverityOf(f.rule))
    && (forall i, rule :: 0 <= i < |bars| ==>
          (Finding(rule, SeverityOf(rule), i) in out <==> Reported(bars[i], rule) || Mistimed(bars, i, rule)))
  }

  method CheckSeries(bars: seq<Bar>) returns (out: seq<Finding>)
    ensures SeriesExact(out, bars)
  {
    hide Reported, Mistimed;
    var perBar := CheckBars(bars);
    var sequence := CheckTimes(bars);
    out := perBar + sequence;
  }

  /** The rules about time and those about a bar by itself have nothing in common. */
  lemma TimeRules(bars: seq<Bar>, i: nat, rule: Rule)
    requires i < |bars|
    ensures AboutSequence(rule) || rule.TimestampNotFinite? ==> !Reported(bars[i], rule)
    ensures Mistimed(bars, i, rule) ==> AboutSequence(rule) || rule == TimestampNotFinite
    ensures rule == TimestampNotFinite ==> (Mistimed(bars, i, rule) <==> !bars[i].ts.Fin?)
  {
  }

  /** A series has a finding about order or duplicates exactly when its readable timestamps do not strictly increase. */
  lemma SequenceFindings(out: seq<Finding>, bars: seq<Bar>)
    requires SeriesExact(out, bars)
    ensures (exists f :: f in out && AboutSequence(f.rule)) <==> !StrictlyIncreasing(Times(bars))
  {
    hide Reported, Mistimed, Times;
    InOrder(bars, |bars|);
    assert bars[..|bars|] == bars;
    if f :| f in out && AboutSequence(f.rule) {
      assert f == Finding(f.rule, SeverityOf(f.rule), f.index);
      TimeRules(bars, f.index, f.rule);
    }
    if i, rule :| 0 <= i < |bars| && AboutSequence(rule) && Mistimed(bars, i, rule) {
      assert Finding(rule, SeverityOf(rule), i) in out;
    }
  }

  /** It is free of errors exactly when no bar is impossible and its timestamps are readable and strictly increase. */
  lemma ErrorFreeSeries(out: seq<Finding>, bars: seq<Bar>)
    requires SeriesExact(out, bars)
    ensures NoErrors(out) <==>
      StrictlyIncreasing(Times(bars)) && forall i :: 0 <= i < |bars| ==> !Impossible(bars[i]) && bars[i].ts.Fin?
  {
    hide Reported, Mistimed, Times, Impossible, StrictlyIncreasing;
    SequenceFindings(out, bars);
    if NoErrors(out) {
      forall i | 0 <= i < |bars|
        ensures !Impossible(bars[i]) && bars[i].ts.Fin?
      {
        if Impossible(bars[i]) {
          var rule := FirstFault(bars[i]);
          FaultIsReported(out, bars, i, rule);
        } else if !bars[i].ts.Fin? {
          TimeRules(bars, i, TimestampNotFinite);
          FaultIsReported(out, bars, i, TimestampNotFinite);
        }
      }
    } else {
      var f :| f in out && f.severity == Error;
      assert f == Finding(f.rule, SeverityOf(f.rule), f.index);
      if Reported(bars[f.index], f.rule) {
        ReportedMeans(bars[f.index], f.rule);
      } else {
        TimeRules(bars, f.index, f.rule);
      }
    }
  }

  lemma FaultIsReported(out: seq<Finding>, bars: seq<Bar>, i: nat, rule: Rule)
    requires SeriesExact(out, bars) && i < |bars| && rule != EmptyBar
    requires Reported(bars[i], rule) || Mistimed(bars, i, rule)
    ensures !NoErrors(out)
  {
    hide Reported, Mistimed;
    assert Finding(rule, SeverityOf(rule), i) in out;
  }

  lemma ReportedMeans(bar: Bar, rule: Rule)
    requires Reported(bar, rule) && rule != EmptyBar
    ensures Impossible(bar)
  {
    hide Impossible, Violates;
    EmptyMeansPlaceholder(bar);
    assert Group(EmptyBar) == 0;
    FaultIsImpossible(bar, rule);
  }

  /** A series stays strictly increasing exactly when the next time is neither before the last one nor a repeat. */
  lemma Extending(times: seq<real>, t: real)
    ensures StrictlyIncreasing(times + [t]) <==>
              StrictlyIncreasing(times) && t !in times && (times != [] ==> times[|times| - 1] <= t)
  {
    var next := times + [t];
    assert forall i :: 0 <= i < |times| ==> next[i] == times[i];
    if StrictlyIncreasing(next) {
      forall i, j | 0 <= i < j < |times|
        ensures times[i] < times[j]
      {
        assert next[i] < next[j];
      }
      forall i | 0 <= i < |times|
        ensures times[i] < t
      {
        assert next[i] < next[|times|];
      }
    }
  }
}
