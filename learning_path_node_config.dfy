/**
 * The learning-path configuration form of a course node
 * (LearningPathNodeConfigController): the bounded-integer check of its text
 * fields, the trigger options it offers, the visibility of the score cut,
 * the duration-mandatory rule, what it saves, and the builder of its
 * controller configuration.
 *
 * The form elements are values held in fields of the controller. The
 * enums AssessmentObligation and CompletionType and the class
 * TranslateableBoolean are not part of this model; only the names and
 * flags read here are declared.
 */
module LearningPathConfig {
  import opened Common
  import opened ModuleConfig

  const CONFIG_KEY_DURATION: string := "duration"
  const CONFIG_KEY_OBLIGATION: string := "obligation"
  const CONFIG_KEY_START: string := "start.date"
  const CONFIG_KEY_TRIGGER: string := "fully.assessed.trigger"
  const CONFIG_KEY_SCORE_CUT_VALUE: string := "scoreCutValue"

  /** AssessmentObligation.mandatory.name() and optional.name(). */
  const OBLIGATION_MANDATORY: string := "mandatory"
  const OBLIGATION_OPTIONAL: string := "optional"
  const CONFIG_DEFAULT_OBLIGATION: string := OBLIGATION_MANDATORY

  const ERROR_POSITIVE_INT: string := "error.positiv.int"

  /** The configuration keys formOK writes or removes. */
  predicate SavedKey(k: string)
  {
    k == CONFIG_KEY_DURATION || k == CONFIG_KEY_OBLIGATION || k == CONFIG_KEY_START
    || k == CONFIG_KEY_TRIGGER || k == CONFIG_KEY_SCORE_CUT_VALUE
  }

  // ---------------------------------------------------------------------
  // Integer.parseInt on 32-bit ints
  // ---------------------------------------------------------------------

  const INT_MIN: int := -0x8000_0000
  const INT_MAX: int := 0x7fff_ffff

  predicate IsDigit(c: char)
  {
    '0' <= c <= '9'
  }

  predicate AllDigits(s: string)
  {
    forall i :: 0 <= i < |s| ==> IsDigit(s[i])
  }

  /** The value of a string of decimal digits. */
  function DigitsValue(s: string): nat
    requires AllDigits(s)
  {
    if s == [] then 0 else DigitsValue(s[..|s| - 1]) * 10 + (s[|s| - 1] - '0') as int
  }

  /** Integer.parseInt: an optional sign and at least one decimal digit,
      with a value in the range of int; anything else (blanks included) is
      a NumberFormatException, here None. */
  function ParseInt(s: string): (r: Option<int>)
    ensures r.Some? ==> INT_MIN <= r.value <= INT_MAX
    ensures r.Some? ==> |s| > 0 && forall i :: 0 <= i < |s| ==> !IsWhitespace(s[i])
  {
    if |s| == 0 then None
    else
      var negative := s[0] == '-';
      var digits := if s[0] == '-' || s[0] == '+' then s[1..] else s;
      if |digits| == 0 || !AllDigits(digits) then None
      else
        var magnitude: int := DigitsValue(digits);
        var v := if negative then -magnitude else magnitude;
        if INT_MIN <= v <= INT_MAX then Some(v) else None
  }

  /** The decimal digits of a natural number, most significant first. */
  function NatDigits(n: nat): (s: string)
    ensures |s| > 0
  {
    if n < 10 then [('0' as int + n) as char]
    else NatDigits(n / 10) + [('0' as int + n % 10) as char]
  }

  /** Integer.toString: the digits, with a minus sign when negative. */
  function IntToString(v: int): string
  {
    if v < 0 then "-" + NatDigits(-v) else NatDigits(v)
  }

  lemma {:induction false} NatDigitsValue(n: nat)
    ensures AllDigits(NatDigits(n)) && DigitsValue(NatDigits(n)) == n
  {
    if n >= 10 {
      NatDigitsValue(n / 10);
      var s := NatDigits(n);
      assert s[..|s| - 1] == NatDigits(n / 10);
    }
  }

  /** Every int written in decimal parses back to itself. */
  lemma ParseIntRoundTrip(v: int)
    requires INT_MIN <= v <= INT_MAX
    ensures ParseInt(IntToString(v)) == Some(v)
  {
    if v < 0 {
      NatDigitsValue(-v);
      assert IntToString(v)[1..] == NatDigits(-v);
    } else {
      NatDigitsValue(v);
      assert IsDigit(IntToString(v)[0]);
    }
  }

  // ---------------------------------------------------------------------
  // validateInteger
  // ---------------------------------------------------------------------

  /** A text element: its value, whether it is enabled, visible and
      mandatory, and the error key it shows. */
  datatype TextElement = TextElement(value: string, enabled: bool, visible: bool, mandatory: bool,
                                     errorKey: Option<string>)

  /** The verdict of validateInteger on a value: a field that is disabled
      or hidden (`checked` false) passes; a blank value passes unless the
      field is mandatory; any other value must parse as an int within
      [min, max]. */
  function IntegerFieldValid(checked: bool, value: string, min: int, max: int, mandatory: bool): (r: bool)
    ensures !checked ==> r
    ensures checked && !HasText(value) ==> (r <==> !mandatory)
    ensures checked && HasText(value) ==> (r <==> ParseInt(value).Some? && min <= ParseInt(value).value <= max)
  {
    if !checked then true
    else if HasText(value) then
      match ParseInt(value)
      case None => false
      case Some(v) => !(min > v) && !(max < v)
    else !mandatory
  }

  /** validateInteger: clears the element's error, computes the verdict,
      and sets `i18nKey` as error exactly when the verdict is false. */
  method ValidateInteger(el: TextElement, min: int, max: int, mandatory: bool, i18nKey: string)
    returns (allOk: bool, after: TextElement)
    ensures allOk == IntegerFieldValid(el.enabled && el.visible, el.value, min, max, mandatory)
    ensures after == el.(errorKey := if allOk then None else Some(i18nKey))
  {
    allOk := true;
    after := el.(errorKey := None);
    if el.enabled && el.visible {
      var val := el.value;
      if HasText(val) {
        var parsed := ParseInt(val);
        if parsed.None? {
          allOk := false;
        } else if min > parsed.value {
          allOk := false;
        } else if max < parsed.value {
          allOk := false;
        }
      } else if mandatory {
        allOk := false;
      }
    }
    if !allOk {
      after := after.(errorKey := Some(i18nKey));
    }
  }

  /** A number padded with a blank is rejected: parseInt does not trim. */
  lemma PaddedNumberRejected()
    ensures !IntegerFieldValid(true, " 5", 0, 10000, true)
  {
    assert HasText(" 5") by { assert !IsWhitespace(" 5"[1]); }
    assert ParseInt(" 5").None? by { assert !IsDigit(" 5"[0]); }
  }

  /** Every int in [min, max], written in decimal, passes. */
  lemma WrittenIntegerAccepted(v: int, min: int, max: int, mandatory: bool)
    requires INT_MIN <= v <= INT_MAX && min <= v <= max
    ensures IntegerFieldValid(true, IntToString(v), min, max, mandatory)
  {
    ParseIntRoundTrip(v);
    NatDigitsValue(if v < 0 then -v else v);
    var s := IntToString(v);
    assert !IsWhitespace(s[|s| - 1]) by {
      if v < 0 {
        assert s[|s| - 1] == NatDigits(-v)[|NatDigits(-v)| - 1];
        assert IsDigit(NatDigits(-v)[|NatDigits(-v)| - 1]);
      } else {
        assert IsDigit(s[|s| - 1]);
      }
    }
  }

  // ---------------------------------------------------------------------
  // Controller configuration and its builder
  // ---------------------------------------------------------------------

  /** A TranslateableBoolean: the flag, whether it carries its own message,
      and that message. */
  datatype TranslateableBoolean = TranslateableBoolean(isTrue: bool, translated: bool, message: string)

  function UntranslatedTrue(): TranslateableBoolean { TranslateableBoolean(true, false, "") }
  function TranslatedTrue(message: string): TranslateableBoolean { TranslateableBoolean(true, true, message) }
  function UntranslatedFalse(): TranslateableBoolean { TranslateableBoolean(false, false, "") }

  /** falseIfNull: an unset status trigger is an untranslated false. */
  function FalseIfNull(t: Option<TranslateableBoolean>): (r: TranslateableBoolean)
    ensures r.isTrue <==> t.Some? && t.value.isTrue
    ensures t.None? ==> !r.translated
    ensures t.Some? ==> r == t.value
  {
    if t.Some? then t.value else UntranslatedFalse()
  }

  /** ControllerConfigImpl: the settings the form reads. */
  datatype ControllerConfig = ControllerConfig(
    obligationVisible: bool,
    triggerNodeVisited: bool,
    triggerConfirmed: bool,
    triggerScore: bool,
    triggerPassed: bool,
    triggerStatusInReview: TranslateableBoolean,
    triggerStatusDone: TranslateableBoolean)

  /** ControllerConfigBuilder: obligation visible and every trigger off
      until enabled; the status triggers are null until enabled. */
  class ControllerConfigBuilder {
    var obligationVisible: bool
    var triggerNodeVisited: bool
    var triggerConfirmed: bool
    var triggerScore: bool
    var triggerPassed: bool
    var triggerStatusInReview: Option<TranslateableBoolean>
    var triggerStatusDone: Option<TranslateableBoolean>

    constructor()
      ensures obligationVisible
      ensures !triggerNodeVisited && !triggerConfirmed && !triggerScore && !triggerPassed
      ensures triggerStatusInReview.None? && triggerStatusDone.None?
    {
      obligationVisible := true;
      triggerNodeVisited, triggerConfirmed, triggerScore, triggerPassed := false, false, false, false;
      triggerStatusInReview, triggerStatusDone := None, None;
    }

    method DisableObligation() returns (b: ControllerConfigBuilder)
      modifies this`obligationVisible
      ensures !obligationVisible && b == this
    {
      obligationVisible := false;
      b := this;
    }

    method EnableNodeVisited() returns (b: ControllerConfigBuilder)
      modifies this`triggerNodeVisited
      ensures triggerNodeVisited && b == this
    {
      triggerNodeVisited := true;
      b := this;
    }

    method EnableConfirmed() returns (b: ControllerConfigBuilder)
      modifies this`triggerConfirmed
      ensures triggerConfirmed && b == this
    {
      triggerConfirmed := true;
      b := this;
    }

    method EnableScore() returns (b: ControllerConfigBuilder)
      modifies this`triggerScore
      ensures triggerScore && b == this
    {
      triggerScore := true;
      b := this;
    }

    method EnablePassed() returns (b: ControllerConfigBuilder)
      modifies this`triggerPassed
      ensures triggerPassed && b == this
    {
      triggerPassed := true;
      b := this;
    }

    /** enableStatusInReview() (None) and enableStatusInReview(message). */
    method EnableStatusInReview(message: Option<string>) returns (b: ControllerConfigBuilder)
      modifies this`triggerStatusInReview
      ensures triggerStatusInReview == Some(if message.Some? then TranslatedTrue(message.value) else UntranslatedTrue())
      ensures b == this
    {
      if message.Some? {
        triggerStatusInReview := Some(TranslatedTrue(message.value));
      } else {
        triggerStatusInReview := Some(UntranslatedTrue());
      }
      b := this;
    }

    /** enableStatusDone() (None) and enableStatusDone(message). */
    method EnableStatusDone(message: Option<string>) returns (b: ControllerConfigBuilder)
      modifies this`triggerStatusDone
      ensures triggerStatusDone == Some(if message.Some? then TranslatedTrue(message.value) else UntranslatedTrue())
      ensures b == this
    {
      if message.Some? {
        triggerStatusDone := Some(TranslatedTrue(message.value));
      } else {
        triggerStatusDone := Some(UntranslatedTrue());
      }
      b := this;
    }

    /** build: the flags as set, the unset status triggers as untranslated
        false. */
    method Build() returns (config: ControllerConfig)
      ensures config.obligationVisible == obligationVisible
      ensures config.triggerNodeVisited == triggerNodeVisited && config.triggerConfirmed == triggerConfirmed
      ensures config.triggerScore == triggerScore && config.triggerPassed == triggerPassed
      ensures config.triggerStatusInReview == FalseIfNull(triggerStatusInReview)
      ensures config.triggerStatusDone == FalseIfNull(triggerStatusDone)
    {
      config := ControllerConfig(obligationVisible, triggerNodeVisited, triggerConfirmed, triggerScore, triggerPassed,
                                 FalseIfNull(triggerStatusInReview), FalseIfNull(triggerStatusDone));
    }
  }

  /** builder().build(): the obligation is visible and no trigger is
      offered. */
  method BuildDefaults() returns (config: ControllerConfig)
    ensures config.obligationVisible
    ensures !config.triggerNodeVisited && !config.triggerConfirmed && !config.triggerScore && !config.triggerPassed
    ensures config.triggerStatusInReview == UntranslatedFalse() && config.triggerStatusDone == UntranslatedFalse()
  {
    var builder := new ControllerConfigBuilder();
    config := builder.Build();
  }

  // ---------------------------------------------------------------------
  // Trigger options
  // ---------------------------------------------------------------------

  /** The triggers of full assessment, in the order the form offers them. */
  datatype Trigger = NodeVisited | Confirmed | Score | Passed | StatusInReview | StatusDone

  /** The configuration value of a trigger. */
  function TriggerKey(t: Trigger): string
  {
    match t
    case NodeVisited => "nodeVisited"
    case Confirmed => "confirmed"
    case Score => "score"
    case Passed => "passed"
    case StatusInReview => "statusInReview"
    case StatusDone => "statusDone"
  }

  const CONFIG_DEFAULT_TRIGGER: string := "confirmed"

  function TriggerRank(t: Trigger): int
  {
    match t
    case NodeVisited => 0
    case Confirmed => 1
    case Score => 2
    case Passed => 3
    case StatusInReview => 4
    case StatusDone => 5
  }

  /** The label of an option: an i18n key, or a message of its own. */
  datatype Label = I18nKey(key: string) | Message(text: string)

  datatype TriggerOption = TriggerOption(trigger: Trigger, caption: Label)

  /** Whether the controller configuration enables a trigger. */
  predicate TriggerEnabled(c: ControllerConfig, t: Trigger)
  {
    match t
    case NodeVisited => c.triggerNodeVisited
    case Confirmed => c.triggerConfirmed
    case Score => c.triggerScore
    case Passed => c.triggerPassed
    case StatusInReview => c.triggerStatusInReview.isTrue
    case StatusDone => c.triggerStatusDone.isTrue
  }

  /** getTranslationOrDefault: the trigger's own message when it has one. */
  function TranslationOrDefault(t: TranslateableBoolean, defaultKey: string): Label
  {
    if t.translated then Message(t.message) else I18nKey(defaultKey)
  }

  /** The label the form shows for a trigger. */
  function TriggerLabel(c: ControllerConfig, t: Trigger): Label
  {
    match t
    case NodeVisited => I18nKey("config.trigger.visited")
    case Confirmed => I18nKey("config.trigger.confirmed")
    case Score => I18nKey("config.trigger.score")
    case Passed => I18nKey("config.trigger.passed")
    case StatusInReview => TranslationOrDefault(c.triggerStatusInReview, "config.trigger.status.in.review")
    case StatusDone => TranslationOrDefault(c.triggerStatusDone, "config.trigger.status.done")
  }

  function TriggersOf(r: seq<TriggerOption>): set<Trigger>
  {
    set x | x in r :: x.trigger
  }

  /** The trigger of a given rank. */
  function TriggerAt(k: int): (t: Trigger)
    requires 0 <= k < 6
    ensures TriggerRank(t) == k
  {
    if k == 0 then NodeVisited
    else if k == 1 then Confirmed
    else if k == 2 then Score
    else if k == 3 then Passed
    else if k == 4 then StatusInReview
    else StatusDone
  }

  /** The option of one trigger, when it is enabled. */
  function OptionOf(c: ControllerConfig, t: Trigger): seq<TriggerOption>
  {
    if TriggerEnabled(c, t) then [TriggerOption(t, TriggerLabel(c, t))] else []
  }

  /** The options of the enabled triggers of rank below `k`, in rank
      order. */
  function EnabledBelow(c: ControllerConfig, k: nat): seq<TriggerOption>
    requires k <= 6
  {
    if k == 0 then [] else EnabledBelow(c, k - 1) + OptionOf(c, TriggerAt(k - 1))
  }

  /** The options below rank `k` are those of the enabled triggers of rank
      below `k`, with their labels. */
  lemma {:induction false} EnabledBelowContent(c: ControllerConfig, k: nat)
    requires k <= 6
    ensures forall x :: x in EnabledBelow(c, k) ==>
              TriggerRank(x.trigger) < k && TriggerEnabled(c, x.trigger) && x.caption == TriggerLabel(c, x.trigger)
    ensures forall t :: TriggerRank(t) < k && TriggerEnabled(c, t) ==> t in TriggersOf(EnabledBelow(c, k))
  {
    if k > 0 {
      EnabledBelowContent(c, k - 1);
      var r := EnabledBelow(c, k);
      assert forall x :: x in EnabledBelow(c, k - 1) ==> x in r;
      forall t | TriggerRank(t) < k && TriggerEnabled(c, t)
        ensures t in TriggersOf(r)
      {
        if TriggerRank(t) == k - 1 {
          assert TriggerAt(k - 1) == t;
          assert r[|r| - 1].trigger == t;
        } else {
          var x :| x in EnabledBelow(c, k - 1) && x.trigger == t;
          assert x in r;
        }
      }
    }
  }

  /** The options below rank `k` are in strictly increasing rank order. */
  lemma {:induction false} EnabledBelowOrdered(c: ControllerConfig, k: nat)
    requires k <= 6
    ensures forall i, j :: 0 <= i < j < |EnabledBelow(c, k)| ==>
              TriggerRank(EnabledBelow(c, k)[i].trigger) < TriggerRank(EnabledBelow(c, k)[j].trigger)
  {
    if k > 0 {
      var prefix := EnabledBelow(c, k - 1);
      EnabledBelowOrdered(c, k - 1);
      EnabledBelowContent(c, k - 1);
      var r := EnabledBelow(c, k);
      if TriggerEnabled(c, TriggerAt(k - 1)) {
        forall i, j | 0 <= i < j < |r|
          ensures TriggerRank(r[i].trigger) < TriggerRank(r[j].trigger)
        {
          assert r[i] == prefix[i];
          if j < |prefix| {
            assert r[j] == prefix[j];
          } else {
            assert prefix[i] in prefix;
          }
        }
      } else {
        assert r == prefix;
      }
    }
  }

  /** The options of getTriggerKV: exactly the enabled triggers, each once,
      in the fixed order node visited, confirmed, score, passed, in review,
      done, each with its label. */
  function TriggerOptions(c: ControllerConfig): (r: seq<TriggerOption>)
    ensures forall i, j :: 0 <= i < j < |r| ==> TriggerRank(r[i].trigger) < TriggerRank(r[j].trigger)
    ensures forall t :: t in TriggersOf(r) <==> TriggerEnabled(c, t)
    ensures forall x :: x in r ==> x.caption == TriggerLabel(c, x.trigger)
  {
    EnabledBelowContent(c, 6);
    EnabledBelowOrdered(c, 6);
    EnabledBelow(c, 6)
  }

  /** The keys of a list of options, in order. */
  function OptionKeys(r: seq<TriggerOption>): (keys: seq<string>)
    ensures |keys| == |r| && forall i :: 0 <= i < |r| ==> keys[i] == TriggerKey(r[i].trigger)
  {
    if r == [] then [] else [TriggerKey(r[0].trigger)] + OptionKeys(r[1..])
  }

  lemma TriggerKeyInjective(t: Trigger, u: Trigger)
    ensures TriggerKey(t) == TriggerKey(u) <==> t == u
  {
  }

  /** A trigger's key is among the keys the form offers exactly when the
      controller configuration enables that trigger. */
  lemma OfferedTriggerKey(c: ControllerConfig, t: Trigger)
    ensures TriggerKey(t) in OptionKeys(TriggerOptions(c)) <==> TriggerEnabled(c, t)
  {
    var r := TriggerOptions(c);
    var keys := OptionKeys(r);
    if TriggerKey(t) in keys {
      var i :| 0 <= i < |keys| && keys[i] == TriggerKey(t);
      TriggerKeyInjective(t, r[i].trigger);
      assert r[i] in r;
    }
    if TriggerEnabled(c, t) {
      assert t in TriggersOf(r);
      var x :| x in r && x.trigger == t;
      var i :| 0 <= i < |r| && r[i] == x;
      assert keys[i] == TriggerKey(t);
    }
  }

  // ---------------------------------------------------------------------
  // The form
  // ---------------------------------------------------------------------

  /** A radio group: its keys, the selected key if one is, and whether it
      is shown. */
  datatype SingleSelection = SingleSelection(keys: seq<string>, selected: Option<string>, visible: bool)

  /** The elements whose changes reach formInnerEvent. */
  datatype FormSource = ObligationSource | TriggerSource | OtherSource

  const OBLIGATION_KEYS: seq<string> := [OBLIGATION_MANDATORY, OBLIGATION_OPTIONAL]

  /** select(key) when `key` is one of the radio keys. */
  function SelectIfListed(keys: seq<string>, key: string): (r: Option<string>)
    ensures r.Some? <==> key in keys
    ensures r.Some? ==> r.value == key
  {
    if key in keys then Some(key) else None
  }

  /** isDurationMandatory: the course completes by duration and the node is
      mandatory. */
  function DurationMandatory(completionByDuration: bool, obligation: Option<string>): bool
  {
    completionByDuration && obligation == Some(OBLIGATION_MANDATORY)
  }

  /** The duration must be an int in [1, 10000]; blank only when it is not
      mandatory. */
  function DurationValid(el: TextElement, mandatory: bool): bool
  {
    IntegerFieldValid(el.enabled && el.visible, el.value, 1, 10000, mandatory)
  }

  /** The score cut must be an int in [0, 10000] and is mandatory. */
  function ScoreCutValid(el: TextElement): bool
  {
    IntegerFieldValid(el.enabled && el.visible, el.value, 0, 10000, true)
  }

  /** A shown blank duration is rejected exactly when the course completes
      by duration and the node is mandatory. */
  lemma BlankDurationRejected(completionByDuration: bool, obligation: Option<string>, el: TextElement)
    requires el.enabled && el.visible && !HasText(el.value)
    ensures !DurationValid(el, DurationMandatory(completionByDuration, obligation))
            <==> completionByDuration && obligation == Some(OBLIGATION_MANDATORY)
  {
  }

  /** validateFormLogic as written: the verdict on the duration is
      overwritten by the verdict on the score cut. */
  function FormVerdictAsWritten(duration: TextElement, durationMandatory: bool, scoreCut: TextElement,
                                superOk: bool): bool
  {
    ScoreCutValid(scoreCut) && superOk
  }

  /** validateFormLogic as intended: both fields and the superclass agree. */
  function FormVerdict(duration: TextElement, durationMandatory: bool, scoreCut: TextElement,
                       superOk: bool): bool
  {
    DurationValid(duration, durationMandatory) && ScoreCutValid(scoreCut) && superOk
  }

  /** As written, the form is accepted whatever the duration holds. */
  lemma {:induction false} AsWrittenIgnoresDuration(d1: TextElement, m1: bool, d2: TextElement, m2: bool,
                                                    scoreCut: TextElement, superOk: bool)
    ensures FormVerdictAsWritten(d1, m1, scoreCut, superOk) == FormVerdictAsWritten(d2, m2, scoreCut, superOk)
  {
  }

  /** A shown duration "abc" with a score cut "5": the form as written is
      accepted, the intended verdict rejects it. */
  lemma InvalidDurationAccepted()
    ensures var duration := TextElement("abc", true, true, false, None);
            var scoreCut := TextElement("5", true, true, true, None);
            FormVerdictAsWritten(duration, false, scoreCut, true) && !FormVerdict(duration, false, scoreCut, true)
  {
    assert HasText("abc") by { assert !IsWhitespace("abc"[0]); }
    assert ParseInt("abc").None? by { assert !IsDigit("abc"[0]); }
    assert HasText("5") by { assert !IsWhitespace("5"[0]); }
    assert ParseInt("5") == Some(5) by {
      assert AllDigits("5");
      assert "5"[..0] == [];
    }
  }

  /** The intended verdict accepts only what the written one accepts, and
      then a shown duration is an int in [1, 10000] or a blank that is not
      mandatory. */
  lemma FormVerdictChecksDuration(duration: TextElement, durationMandatory: bool, scoreCut: TextElement,
                                  superOk: bool)
    requires FormVerdict(duration, durationMandatory, scoreCut, superOk)
    ensures FormVerdictAsWritten(duration, durationMandatory, scoreCut, superOk)
    ensures duration.enabled && duration.visible && HasText(duration.value) ==>
              ParseInt(duration.value).Some? && 1 <= ParseInt(duration.value).value <= 10000
    ensures duration.enabled && duration.visible && !HasText(duration.value) ==> !durationMandatory
  {
  }

  /** The configuration formOK leaves: the duration, the obligation (the
      default when none is selected), the start date, the trigger (the
      default when none is selected), and the score cut when its field is
      shown; the score cut is removed otherwise. */
  function SavedConfig(c: map<string, ConfigValue>, duration: string, obligation: Option<string>, start: Option<int>,
                       trigger: Option<string>, scoreCutVisible: bool, scoreCut: string): (r: map<string, ConfigValue>)
    ensures CONFIG_KEY_SCORE_CUT_VALUE in r <==> scoreCutVisible
    ensures forall k :: !SavedKey(k) ==> (k in r <==> k in c) && (k in c ==> r[k] == c[k])
  {
    var obligationKey := if obligation.Some? then obligation.value else CONFIG_DEFAULT_OBLIGATION;
    var triggerKey := if trigger.Some? then trigger.value else CONFIG_DEFAULT_TRIGGER;
    var saved := c[CONFIG_KEY_DURATION := Text(duration)][CONFIG_KEY_OBLIGATION := Text(obligationKey)]
                  [CONFIG_KEY_START := Date(start)][CONFIG_KEY_TRIGGER := Text(triggerKey)];
    if scoreCutVisible then saved[CONFIG_KEY_SCORE_CUT_VALUE := Text(scoreCut)]
    else saved - {CONFIG_KEY_SCORE_CUT_VALUE}
  }

  /** What formOK saves, initForm reads back: the same duration, start
      date and score cut, and the selected obligation and trigger (or their
      defaults). */
  lemma SavedConfigReloads(c: map<string, ConfigValue>, duration: string, obligation: Option<string>,
                           start: Option<int>, trigger: Option<string>, scoreCutVisible: bool, scoreCut: string)
    ensures var r := SavedConfig(c, duration, obligation, start, trigger, scoreCutVisible, scoreCut);
            && StringValue(r, CONFIG_KEY_DURATION) == Some(duration)
            && StringValueOr(r, CONFIG_KEY_OBLIGATION, CONFIG_DEFAULT_OBLIGATION)
               == (if obligation.Some? then obligation.value else CONFIG_DEFAULT_OBLIGATION)
            && DateValue(r, CONFIG_KEY_START) == start
            && StringValueOr(r, CONFIG_KEY_TRIGGER, CONFIG_DEFAULT_TRIGGER)
               == (if trigger.Some? then trigger.value else CONFIG_DEFAULT_TRIGGER)
            && StringValue(r, CONFIG_KEY_SCORE_CUT_VALUE) == (if scoreCutVisible then Some(scoreCut) else None)
  {
  }

  /** The learning-path configuration form of one course node. */
  class LearningPathNodeConfigController {
    var moduleConfigs: map<string, ConfigValue>
    var durationEl: TextElement
    var obligationEl: SingleSelection
    var startDate: Option<int>
    var triggerEl: SingleSelection
    var scoreCutEl: TextElement
    /** Whether the course's completion type is CompletionType.duration. */
    const completionByDuration: bool
    const ctrlConfig: ControllerConfig

    /** The duration is mandatory as isDurationMandatory says, and the score
        cut is shown exactly when the score trigger is selected. */
    predicate UIConsistent()
      reads this
    {
      && durationEl.mandatory == IsDurationMandatory()
      && scoreCutEl.visible == (triggerEl.selected == Some(TriggerKey(Score)))
    }

    function IsDurationMandatory(): bool
      reads this
    {
      DurationMandatory(completionByDuration, obligationEl.selected)
    }

    /** The controller and initForm: each element shows what the
        configuration holds, a radio key is selected only when it is
        offered, and the UI rules hold. */
    constructor(moduleConfig: map<string, ConfigValue>, completionByDuration: bool, ctrlConfig: ControllerConfig)
      ensures this.moduleConfigs == moduleConfig
      ensures this.completionByDuration == completionByDuration && this.ctrlConfig == ctrlConfig
      ensures durationEl.value == StringValueOr(moduleConfig, CONFIG_KEY_DURATION, "")
      ensures durationEl.enabled && durationEl.visible && durationEl.errorKey.None?
      ensures obligationEl == SingleSelection(OBLIGATION_KEYS,
                SelectIfListed(OBLIGATION_KEYS, StringValueOr(moduleConfig, CONFIG_KEY_OBLIGATION, CONFIG_DEFAULT_OBLIGATION)),
                ctrlConfig.obligationVisible)
      ensures startDate == DateValue(moduleConfig, CONFIG_KEY_START)
      ensures triggerEl.keys == OptionKeys(TriggerOptions(ctrlConfig)) && triggerEl.visible
      ensures triggerEl.selected
              == SelectIfListed(triggerEl.keys, StringValueOr(moduleConfig, CONFIG_KEY_TRIGGER, CONFIG_DEFAULT_TRIGGER))
      ensures scoreCutEl.value == StringValueOr(moduleConfig, CONFIG_KEY_SCORE_CUT_VALUE, "")
      ensures scoreCutEl.enabled && scoreCutEl.mandatory && scoreCutEl.errorKey.None?
      ensures UIConsistent()
    {
      this.moduleConfigs := moduleConfig;
      this.completionByDuration := completionByDuration;
      this.ctrlConfig := ctrlConfig;
      durationEl := TextElement(StringValueOr(moduleConfig, CONFIG_KEY_DURATION, ""), true, true, false, None);
      var obligationKey := StringValueOr(moduleConfig, CONFIG_KEY_OBLIGATION, CONFIG_DEFAULT_OBLIGATION);
      obligationEl := SingleSelection(OBLIGATION_KEYS, SelectIfListed(OBLIGATION_KEYS, obligationKey),
                                      ctrlConfig.obligationVisible);
      startDate := DateValue(moduleConfig, CONFIG_KEY_START);
      triggerEl := SingleSelection([], None, true);
      scoreCutEl := TextElement(StringValueOr(moduleConfig, CONFIG_KEY_SCORE_CUT_VALUE, ""), true, true, true, None);
      new;
      var triggerKV := GetTriggerKV();
      var keys := OptionKeys(triggerKV);
      var triggerKey := StringValueOr(moduleConfig, CONFIG_KEY_TRIGGER, CONFIG_DEFAULT_TRIGGER);
      triggerEl := SingleSelection(keys, SelectIfListed(keys, triggerKey), true);
      UpdateUI();
    }

    /** getTriggerKV: the options of the enabled triggers, in order. */
    method GetTriggerKV() returns (kv: seq<TriggerOption>)
      ensures kv == TriggerOptions(ctrlConfig)
    {
      var c := ctrlConfig;
      kv := [];
      if c.triggerNodeVisited {
        kv := kv + [TriggerOption(NodeVisited, I18nKey("config.trigger.visited"))];
      }
      assert kv == EnabledBelow(c, 1);
      if c.triggerConfirmed {
        kv := kv + [TriggerOption(Confirmed, I18nKey("config.trigger.confirmed"))];
      }
      assert kv == EnabledBelow(c, 2);
      if c.triggerScore {
        kv := kv + [TriggerOption(Score, I18nKey("config.trigger.score"))];
      }
      assert kv == EnabledBelow(c, 3);
      if c.triggerPassed {
        kv := kv + [TriggerOption(Passed, I18nKey("config.trigger.passed"))];
      }
      assert kv == EnabledBelow(c, 4);
      var triggerStatusInReview := c.triggerStatusInReview;
      if triggerStatusInReview.isTrue {
        kv := kv + [TriggerOption(StatusInReview,
                                  TranslationOrDefault(triggerStatusInReview, "config.trigger.status.in.review"))];
      }
      assert kv == EnabledBelow(c, 5);
      var triggerStatusDone := c.triggerStatusDone;
      if triggerStatusDone.isTrue {
        kv := kv + [TriggerOption(StatusDone,
                                  TranslationOrDefault(triggerStatusDone, "config.trigger.status.done"))];
      }
      assert kv == EnabledBelow(c, 6);
    }

    /** updateUI: the UI rules hold again; nothing else changes. */
    method UpdateUI()
      modifies this`durationEl, this`scoreCutEl
      ensures durationEl == old(durationEl).(mandatory := IsDurationMandatory())
      ensures scoreCutEl == old(scoreCutEl).(visible := triggerEl.selected == Some(TriggerKey(Score)))
      ensures UIConsistent()
    {
      durationEl := durationEl.(mandatory := IsDurationMandatory());
      var triggerScore := triggerEl.selected.Some? && triggerEl.selected.value == TriggerKey(Score);
      scoreCutEl := scoreCutEl.(visible := triggerScore);
    }

    /** formInnerEvent: a change of the obligation or the trigger brings
        the UI rules up to date; other events change nothing here. */
    method FormInnerEvent(source: FormSource)
      modifies this`durationEl, this`scoreCutEl
      ensures source != OtherSource ==> UIConsistent()
      ensures source != OtherSource ==> durationEl == old(durationEl).(mandatory := IsDurationMandatory())
      ensures source != OtherSource ==>
                scoreCutEl == old(scoreCutEl).(visible := triggerEl.selected == Some(TriggerKey(Score)))
      ensures source == OtherSource ==> durationEl == old(durationEl) && scoreCutEl == old(scoreCutEl)
    {
      if source == ObligationSource {
        UpdateUI();
      } else if source == TriggerSource {
        UpdateUI();
      }
    }

    /** validateFormLogic as written: both fields are checked and marked,
        but the verdict is the score cut's alone (with the superclass's). */
    method ValidateFormLogic(superOk: bool) returns (allOk: bool)
      modifies this`durationEl, this`scoreCutEl
      ensures allOk == FormVerdictAsWritten(old(durationEl), old(IsDurationMandatory()), old(scoreCutEl), superOk)
      ensures durationEl == old(durationEl).(errorKey :=
                if DurationValid(old(durationEl), old(IsDurationMandatory())) then None else Some(ERROR_POSITIVE_INT))
      ensures scoreCutEl == old(scoreCutEl).(errorKey :=
                if ScoreCutValid(old(scoreCutEl)) then None else Some(ERROR_POSITIVE_INT))
      ensures old(UIConsistent()) ==> UIConsistent()
    {
      allOk := true;
      var durationOk, d := ValidateInteger(durationEl, 1, 10000, IsDurationMandatory(), ERROR_POSITIVE_INT);
      durationEl := d;
      allOk := durationOk;
      var scoreOk, s := ValidateInteger(scoreCutEl, 0, 10000, true, ERROR_POSITIVE_INT);
      scoreCutEl := s;
      allOk := scoreOk;
      allOk := allOk && superOk;
    }

    /** validateFormLogic as intended: the verdicts on both fields and the
        superclass's are combined. */
    method ValidateFormLogicCorrected(superOk: bool) returns (allOk: bool)
      modifies this`durationEl, this`scoreCutEl
      ensures allOk == FormVerdict(old(durationEl), old(IsDurationMandatory()), old(scoreCutEl), superOk)
      ensures durationEl == old(durationEl).(errorKey :=
                if DurationValid(old(durationEl), old(IsDurationMandatory())) then None else Some(ERROR_POSITIVE_INT))
      ensures scoreCutEl == old(scoreCutEl).(errorKey :=
                if ScoreCutValid(old(scoreCutEl)) then None else Some(ERROR_POSITIVE_INT))
      ensures old(UIConsistent()) ==> UIConsistent()
    {
      var durationOk, d := ValidateInteger(durationEl, 1, 10000, IsDurationMandatory(), ERROR_POSITIVE_INT);
      durationEl := d;
      var scoreOk, s := ValidateInteger(scoreCutEl, 0, 10000, true, ERROR_POSITIVE_INT);
      scoreCutEl := s;
      allOk := durationOk && scoreOk && superOk;
    }

    /** formOK: stores the form's values in the configuration; with the UI
        rules in force, the score cut is stored exactly when the score
        trigger is selected. */
    method FormOK()
      modifies this`moduleConfigs
      ensures moduleConfigs == SavedConfig(old(moduleConfigs), durationEl.value, obligationEl.selected, startDate,
                                           triggerEl.selected, scoreCutEl.visible, scoreCutEl.value)
      ensures UIConsistent() ==>
                (CONFIG_KEY_SCORE_CUT_VALUE in moduleConfigs <==> triggerEl.selected == Some(TriggerKey(Score)))
    {
      var estimatedTime := durationEl.value;
      moduleConfigs := moduleConfigs[CONFIG_KEY_DURATION := Text(estimatedTime)];
      var obligation := if obligationEl.selected.Some? then obligationEl.selected.value else CONFIG_DEFAULT_OBLIGATION;
      moduleConfigs := moduleConfigs[CONFIG_KEY_OBLIGATION := Text(obligation)];
      moduleConfigs := moduleConfigs[CONFIG_KEY_START := Date(startDate)];
      var trigger := if triggerEl.selected.Some? then triggerEl.selected.value else CONFIG_DEFAULT_TRIGGER;
      moduleConfigs := moduleConfigs[CONFIG_KEY_TRIGGER := Text(trigger)];
      if scoreCutEl.visible {
        moduleConfigs := moduleConfigs[CONFIG_KEY_SCORE_CUT_VALUE := Text(scoreCutEl.value)];
      } else {
        moduleConfigs := moduleConfigs - {CONFIG_KEY_SCORE_CUT_VALUE};
      }
    }
  }
}
