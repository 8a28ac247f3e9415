/**
 * The structure node (STCourseNode): the versioned migration of its module
 * configuration, the delegate-display test, the configuration check and
 * the list of its score/passed/failed condition expressions.
 *
 * The configuration keys and display values are constants of
 * STCourseNodeEditController and SPEditController, which are not part of
 * this model; the proofs rely only on the keys being distinct.
 */
module STCourse {
  import opened Common
  import opened ModuleConfig

  const CONFIG_KEY_DISPLAY_TYPE: string := "display"
  const CONFIG_KEY_COLUMNS: string := "columns"
  const CONFIG_KEY_FILE: string := "file"
  const CONFIG_KEY_ALLOW_RELATIVE_LINKS: string := "allowRelativeLinks"
  const CONFIG_KEY_DELIVERYOPTIONS: string := "deliveryOptions"
  const CONFIG_VALUE_DISPLAY_TOC: string := "toc"
  const CONFIG_VALUE_DISPLAY_PEEKVIEW: string := "peekview"
  const CONFIG_VALUE_DISPLAY_FILE: string := "file"
  const CONFIG_VALUE_DISPLAY_DELEGATE: string := "delegate"
  const PANE_TAB_ST_CONFIG: string := "pane.tab.st_config"

  /** The keys the migration writes. */
  predicate MigratedKey(k: string)
  {
    k == CONFIG_KEY_DISPLAY_TYPE || k == CONFIG_KEY_COLUMNS
    || k == CONFIG_KEY_ALLOW_RELATIVE_LINKS || k == CONFIG_KEY_DELIVERYOPTIONS
  }

  /** The configuration of a new structure node: relative links off, the
      peekview display in two columns, the default delivery options, and
      version 3. */
  function NewNodeConfig(c: Configuration): (r: Configuration)
    ensures r.version == 3
    ensures CONFIG_KEY_ALLOW_RELATIVE_LINKS in r.entries && r.entries[CONFIG_KEY_ALLOW_RELATIVE_LINKS] == Flag(false)
    ensures CONFIG_KEY_DISPLAY_TYPE in r.entries && r.entries[CONFIG_KEY_DISPLAY_TYPE] == Text(CONFIG_VALUE_DISPLAY_PEEKVIEW)
    ensures CONFIG_KEY_COLUMNS in r.entries && r.entries[CONFIG_KEY_COLUMNS] == Number(2)
    ensures CONFIG_KEY_DELIVERYOPTIONS in r.entries && r.entries[CONFIG_KEY_DELIVERYOPTIONS] == Delivery(DefaultWithGlossary)
    ensures forall k :: k in c.entries && !MigratedKey(k) ==> k in r.entries && r.entries[k] == c.entries[k]
  {
    Configuration(
      c.entries[CONFIG_KEY_ALLOW_RELATIVE_LINKS := Flag(false)]
               [CONFIG_KEY_DISPLAY_TYPE := Text(CONFIG_VALUE_DISPLAY_PEEKVIEW)]
               [CONFIG_KEY_COLUMNS := Number(2)]
               [CONFIG_KEY_DELIVERYOPTIONS := Delivery(DefaultWithGlossary)],
      3)
  }

  /** The step to version 2: relative links off. */
  function UpgradeToV2(c: Configuration): Configuration
  {
    if c.version < 2 then Configuration(c.entries[CONFIG_KEY_ALLOW_RELATIVE_LINKS := Flag(false)], 2)
    else c
  }

  /** The step to version 3: the file display when a file is configured,
      otherwise the table of contents in one column. */
  function UpgradeToV3(c: Configuration): Configuration
  {
    if c.version < 3 then
      if CONFIG_KEY_FILE in c.entries
      then Configuration(c.entries[CONFIG_KEY_DISPLAY_TYPE := Text(CONFIG_VALUE_DISPLAY_FILE)], 3)
      else Configuration(c.entries[CONFIG_KEY_DISPLAY_TYPE := Text(CONFIG_VALUE_DISPLAY_TOC)]
                                  [CONFIG_KEY_COLUMNS := Number(1)], 3)
    else c
  }

  /** The step to version 4: the default delivery options when none are
      set. */
  function UpgradeToV4(c: Configuration): Configuration
  {
    if c.version < 4 then
      if CONFIG_KEY_DELIVERYOPTIONS !in c.entries
      then Configuration(c.entries[CONFIG_KEY_DELIVERYOPTIONS := Delivery(DefaultWithGlossary)], 4)
      else Configuration(c.entries, 4)
    else c
  }

  /** The configuration after an upgrade call: the three guarded steps in
      order. */
  function Upgrade(c: Configuration): (r: Configuration)
    ensures r.version == if c.version < 4 then 4 else c.version
    ensures c.version >= 4 ==> r == c
    ensures c.version < 2 ==>
      CONFIG_KEY_ALLOW_RELATIVE_LINKS in r.entries && r.entries[CONFIG_KEY_ALLOW_RELATIVE_LINKS] == Flag(false)
    ensures c.version < 3 && CONFIG_KEY_FILE in c.entries ==>
      CONFIG_KEY_DISPLAY_TYPE in r.entries && r.entries[CONFIG_KEY_DISPLAY_TYPE] == Text(CONFIG_VALUE_DISPLAY_FILE)
    ensures c.version < 3 && CONFIG_KEY_FILE !in c.entries ==>
      CONFIG_KEY_DISPLAY_TYPE in r.entries && r.entries[CONFIG_KEY_DISPLAY_TYPE] == Text(CONFIG_VALUE_DISPLAY_TOC)
      && CONFIG_KEY_COLUMNS in r.entries && r.entries[CONFIG_KEY_COLUMNS] == Number(1)
    ensures c.version < 4 ==> CONFIG_KEY_DELIVERYOPTIONS in r.entries
    ensures CONFIG_KEY_DELIVERYOPTIONS in c.entries ==>
      CONFIG_KEY_DELIVERYOPTIONS in r.entries && r.entries[CONFIG_KEY_DELIVERYOPTIONS] == c.entries[CONFIG_KEY_DELIVERYOPTIONS]
    ensures c.version < 4 && CONFIG_KEY_DELIVERYOPTIONS !in c.entries ==>
      CONFIG_KEY_DELIVERYOPTIONS in r.entries && r.entries[CONFIG_KEY_DELIVERYOPTIONS] == Delivery(DefaultWithGlossary)
    ensures c.version >= 3 ==> forall k :: k != CONFIG_KEY_DELIVERYOPTIONS ==>
      (k in r.entries <==> k in c.entries) && (k in c.entries ==> r.entries[k] == c.entries[k])
    ensures forall k :: k in c.entries && !MigratedKey(k) ==> k in r.entries && r.entries[k] == c.entries[k]
    ensures forall k :: k in r.entries && !MigratedKey(k) ==> k in c.entries
  {
    UpgradeToV4(UpgradeToV3(UpgradeToV2(c)))
  }

  /** A second upgrade call changes nothing: every step is guarded by the
      version the first call has raised to 4 or more. */
  lemma UpgradeIdempotent(c: Configuration)
    ensures Upgrade(Upgrade(c)) == Upgrade(c)
  {
  }

  /** A course node as isDelegatingSTCourseNode sees it: whether it is a
      structure node, and its configuration entries. */
  datatype CourseNodeRef = CourseNodeRef(isStructureNode: bool, entries: map<string, ConfigValue>)

  /** isDelegatingSTCourseNode: a structure node whose display type, the
      table of contents by default, is "delegate". */
  function IsDelegatingSTCourseNode(nodeToCheck: CourseNodeRef): (r: bool)
    ensures r <==> nodeToCheck.isStructureNode && CONFIG_KEY_DISPLAY_TYPE in nodeToCheck.entries
                   && nodeToCheck.entries[CONFIG_KEY_DISPLAY_TYPE] == Text(CONFIG_VALUE_DISPLAY_DELEGATE)
  {
    if !nodeToCheck.isStructureNode then false
    else
      var displayMode := StringValueOr(nodeToCheck.entries, CONFIG_KEY_DISPLAY_TYPE, CONFIG_VALUE_DISPLAY_TOC);
      displayMode == CONFIG_VALUE_DISPLAY_DELEGATE
  }

  /** The kind of failed evaluation a score calculator applies; a new
      structure node's calculator fails as not passed after the end date. */
  datatype FailedEvaluationType = FailedAsNotPassedAfterEndDate | OtherFailedType(name: string)

  /** The ScoreCalculator: its three expressions (null is None), its failed
      type and its expert-mode flag. */
  datatype ScoreCalculator = ScoreCalculator(
    scoreExpression: Option<string>,
    passedExpression: Option<string>,
    failedExpression: Option<string>,
    failedType: Option<FailedEvaluationType>,
    expertMode: bool)

  /** A new calculator with the failed type getScoreCalculator sets. */
  function NewScoreCalculator(): ScoreCalculator
  {
    ScoreCalculator(None, None, None, Some(FailedAsNotPassedAfterEndDate), false)
  }

  /** The calculator getScoreCalculator returns: the node's own, or a new
      one when there is none. */
  function CalculatorOrNew(sc: Option<ScoreCalculator>): ScoreCalculator
  {
    if sc.Some? then sc.value else NewScoreCalculator()
  }

  /** A Condition: its id, its expression (null is None) and its expert-mode
      flag. */
  datatype Condition = Condition(conditionId: string, conditionExpression: Option<string>, expertMode: bool)

  /** The condition getScoreCalculator builds for one expression: expert
      mode exactly when an expression is set. */
  function ConditionFor(id: string, expression: Option<string>): Condition
  {
    Condition(id, expression, expression.Some?)
  }

  /** A ConditionExpression: a condition id with its expression text. */
  datatype ConditionExpression = ConditionExpression(id: string, expression: string)

  const PASSED_ID: string := "passed"
  const SCORE_ID: string := "score"
  const FAILED_ID: string := "failed"

  /** The position of a condition id in the order passed, score, failed. */
  function ConditionRank(id: string): int
  {
    if id == PASSED_ID then 0 else if id == SCORE_ID then 1 else if id == FAILED_ID then 2 else 3
  }

  /** The ids of a list of condition expressions. */
  function ConditionIds(r: seq<ConditionExpression>): set<string>
  {
    set x | x in r :: x.id
  }

  /** The expression of a calculator a condition id stands for. */
  function ExpressionOf(c: ScoreCalculator, id: string): Option<string>
  {
    if id == PASSED_ID then c.passedExpression
    else if id == SCORE_ID then c.scoreExpression
    else c.failedExpression
  }

  /** The non-blank condition of one expression, as a list of zero or one. */
  function ActiveCondition(id: string, expression: Option<string>): (r: seq<ConditionExpression>)
    ensures |r| <= 1
    ensures |r| == 1 <==> ContainsNonWhitespace(expression)
    ensures |r| == 1 ==> r[0] == ConditionExpression(id, expression.value)
  {
    if ContainsNonWhitespace(expression) then [ConditionExpression(id, expression.value)] else []
  }

  /** The conditions of a calculator that getConditionExpressions adds:
      passed, score and failed in that order, each only when non-blank. */
  function ActiveConditions(c: ScoreCalculator): (r: seq<ConditionExpression>)
    ensures forall x :: x in r ==> HasText(x.expression) && Some(x.expression) == ExpressionOf(c, x.id)
    ensures forall i, j :: 0 <= i < j < |r| ==> ConditionRank(r[i].id) < ConditionRank(r[j].id)
    ensures PASSED_ID in ConditionIds(r) <==> ContainsNonWhitespace(c.passedExpression)
    ensures SCORE_ID in ConditionIds(r) <==> ContainsNonWhitespace(c.scoreExpression)
    ensures FAILED_ID in ConditionIds(r) <==> ContainsNonWhitespace(c.failedExpression)
  {
    var p := ActiveCondition(PASSED_ID, c.passedExpression);
    var s := ActiveCondition(SCORE_ID, c.scoreExpression);
    var f := ActiveCondition(FAILED_ID, c.failedExpression);
    ActiveConditionsContent(c, p, s, f);
    ActiveConditionsOrdered(c, p, s, f);
    ActiveConditionsIds(c, p, s, f);
    p + s + f
  }

  /** The three lists of ActiveConditions, put together: each entry is
      non-blank and is its calculator's expression. */
  lemma ActiveConditionsContent(c: ScoreCalculator, p: seq<ConditionExpression>, s: seq<ConditionExpression>,
                                 f: seq<ConditionExpression>)
    requires p == ActiveCondition(PASSED_ID, c.passedExpression)
    requires s == ActiveCondition(SCORE_ID, c.scoreExpression)
    requires f == ActiveCondition(FAILED_ID, c.failedExpression)
    ensures forall x :: x in p + s + f ==> HasText(x.expression) && Some(x.expression) == ExpressionOf(c, x.id)
  {
    assert forall x :: x in p + s + f <==> x in p || x in s || x in f;
  }

  /** The three lists of ActiveConditions, put together: passed before
      score before failed. */
  lemma ActiveConditionsOrdered(c: ScoreCalculator, p: seq<ConditionExpression>, s: seq<ConditionExpression>,
                                 f: seq<ConditionExpression>)
    requires p == ActiveCondition(PASSED_ID, c.passedExpression)
    requires s == ActiveCondition(SCORE_ID, c.scoreExpression)
    requires f == ActiveCondition(FAILED_ID, c.failedExpression)
    ensures forall i, j :: 0 <= i < j < |p + s + f| ==> ConditionRank((p + s + f)[i].id) < ConditionRank((p + s + f)[j].id)
  {
    assert ConditionRank(PASSED_ID) == 0 && ConditionRank(SCORE_ID) == 1 && ConditionRank(FAILED_ID) == 2;
    var all := p + s + f;
    forall i, j | 0 <= i < j < |all|
      ensures ConditionRank(all[i].id) < ConditionRank(all[j].id)
    {
      if i < |p| {
        assert all[i] == p[0];
        if j < |p| + |s| {
          assert all[j] == s[0];
        } else {
          assert all[j] == f[0];
        }
      } else {
        assert all[i] == s[0] && all[j] == f[0];
      }
    }
  }

  /** The three lists of ActiveConditions, put together: the ids present
      are those of the non-blank expressions. */
  lemma ActiveConditionsIds(c: ScoreCalculator, p: seq<ConditionExpression>, s: seq<ConditionExpression>,
                             f: seq<ConditionExpression>)
    requires p == ActiveCondition(PASSED_ID, c.passedExpression)
    requires s == ActiveCondition(SCORE_ID, c.scoreExpression)
    requires f == ActiveCondition(FAILED_ID, c.failedExpression)
    ensures PASSED_ID in ConditionIds(p + s + f) <==> ContainsNonWhitespace(c.passedExpression)
    ensures SCORE_ID in ConditionIds(p + s + f) <==> ContainsNonWhitespace(c.scoreExpression)
    ensures FAILED_ID in ConditionIds(p + s + f) <==> ContainsNonWhitespace(c.failedExpression)
  {
    assert forall x :: x in p + s + f <==> x in p || x in s || x in f;
    assert ConditionIds(p + s + f) == ConditionIds(p) + ConditionIds(s) + ConditionIds(f);
    assert ConditionIds(p) == (if |p| == 1 then {PASSED_ID} else {});
    assert ConditionIds(s) == (if |s| == 1 then {SCORE_ID} else {});
    assert ConditionIds(f) == (if |f| == 1 then {FAILED_ID} else {});
  }

  /** A StatusDescription: no error, or the missing-file error with its
      message keys, the node's short title as parameter, the node it is
      about and the pane to open. */
  datatype StatusDescription =
    | NoError
    | Error(shortKey: string, longKey: string, params: seq<string>, unit: string, pane: string)

  /** The error isConfigValid reports for a file display without a file. */
  function MissingFileError(shortTitle: string, ident: string): StatusDescription
  {
    Error("error.missingfile.short", "error.missingfile.long", [shortTitle], ident, PANE_TAB_ST_CONFIG)
  }

  /** The structure node: its module configuration, its score calculator,
      the three conditions built from it (null until first built), and the
      status cache the editor fills. */
  class STCourseNode {
    var config: Configuration
    var scoreCalculator: Option<ScoreCalculator>
    var passedExpression: Option<Condition>
    var scoreExpression: Option<Condition>
    var failedExpression: Option<Condition>
    var oneClickStatusCache: Option<seq<StatusDescription>>
    const shortTitle: string
    const ident: string

    /** A new node: the configuration `initial` the base class creates, with
        the defaults of a new node applied. */
    constructor(initial: Configuration, shortTitle: string, ident: string)
      ensures config == NewNodeConfig(initial)
      ensures scoreCalculator == Some(NewScoreCalculator())
      ensures passedExpression.None? && scoreExpression.None? && failedExpression.None?
      ensures oneClickStatusCache.None?
      ensures this.shortTitle == shortTitle && this.ident == ident
    {
      config := initial;
      scoreCalculator := None;
      passedExpression, scoreExpression, failedExpression := None, None, None;
      oneClickStatusCache := None;
      this.shortTitle := shortTitle;
      this.ident := ident;
      new;
      UpdateModuleConfigDefaults(true);
    }

    /** getScoreCalculator: creates the calculator when there is none and
        rebuilds the three conditions from its expressions. */
    method GetScoreCalculator() returns (calculator: ScoreCalculator)
      modifies this`scoreCalculator, this`passedExpression, this`scoreExpression, this`failedExpression
      ensures calculator == CalculatorOrNew(old(scoreCalculator))
      ensures scoreCalculator == Some(calculator)
      ensures passedExpression == Some(ConditionFor(PASSED_ID, calculator.passedExpression))
      ensures scoreExpression == Some(ConditionFor(SCORE_ID, calculator.scoreExpression))
      ensures failedExpression == Some(ConditionFor(FAILED_ID, calculator.failedExpression))
    {
      if scoreCalculator.None? {
        scoreCalculator := Some(NewScoreCalculator());
      }
      calculator := scoreCalculator.value;
      passedExpression := Some(ConditionFor(PASSED_ID, calculator.passedExpression));
      scoreExpression := Some(ConditionFor(SCORE_ID, calculator.scoreExpression));
      failedExpression := Some(ConditionFor(FAILED_ID, calculator.failedExpression));
    }

    /** setScoreCalculator: installs the calculator (a new one for null)
        and copies its expressions into the conditions in expert mode. With
        a calculator given, the conditions must have been built before. */
    method SetScoreCalculator(sc: Option<ScoreCalculator>)
      requires sc.None? || (passedExpression.Some? && scoreExpression.Some? && failedExpression.Some?)
      modifies this`scoreCalculator, this`passedExpression, this`scoreExpression, this`failedExpression
      ensures scoreCalculator == Some(CalculatorOrNew(sc))
      ensures passedExpression == Some(Condition(PASSED_ID, CalculatorOrNew(sc).passedExpression, true))
      ensures scoreExpression == Some(Condition(SCORE_ID, CalculatorOrNew(sc).scoreExpression, true))
      ensures failedExpression == Some(Condition(FAILED_ID, CalculatorOrNew(sc).failedExpression, true))
    {
      scoreCalculator := sc;
      if sc.None? {
        var calculator := GetScoreCalculator();
        scoreCalculator := Some(calculator);
      }
      var calculator := scoreCalculator.value;
      scoreExpression := Some(Condition(SCORE_ID, calculator.scoreExpression, true));
      passedExpression := Some(Condition(PASSED_ID, calculator.passedExpression, true));
      failedExpression := Some(Condition(FAILED_ID, calculator.failedExpression, true));
    }

    /** updateModuleConfigDefaults: the defaults of a new node, or the
        upgrade of an existing configuration step by step to version 4; the
        step to version 2 also puts the calculator into expert mode. */
    method UpdateModuleConfigDefaults(isNewNode: bool)
      modifies this`config, this`scoreCalculator, this`passedExpression, this`scoreExpression, this`failedExpression
      ensures isNewNode ==>
        config == NewNodeConfig(old(config)) && scoreCalculator == Some(NewScoreCalculator())
        && unchanged(this`passedExpression, this`scoreExpression, this`failedExpression)
      ensures !isNewNode ==> config == Upgrade(old(config))
      ensures !isNewNode && old(config.version) < 2 ==>
        var calculator := CalculatorOrNew(old(scoreCalculator));
        scoreCalculator == Some(calculator.(expertMode := true))
        && passedExpression == Some(ConditionFor(PASSED_ID, calculator.passedExpression))
        && scoreExpression == Some(ConditionFor(SCORE_ID, calculator.scoreExpression))
        && failedExpression == Some(ConditionFor(FAILED_ID, calculator.failedExpression))
      ensures !isNewNode && old(config.version) >= 2 ==>
        unchanged(this`scoreCalculator, this`passedExpression, this`scoreExpression, this`failedExpression)
    {
      if isNewNode {
        config := NewNodeConfig(config);
        scoreCalculator := Some(NewScoreCalculator());
      } else {
        if config.version < 2 {
          config := Configuration(config.entries[CONFIG_KEY_ALLOW_RELATIVE_LINKS := Flag(false)], config.version);
          var calculator := GetScoreCalculator();
          calculator := GetScoreCalculator();
          scoreCalculator := Some(calculator.(expertMode := true));
          config := config.(version := 2);
        }
        if config.version < 3 {
          if CONFIG_KEY_FILE in config.entries {
            config := config.(entries := config.entries[CONFIG_KEY_DISPLAY_TYPE := Text(CONFIG_VALUE_DISPLAY_FILE)]);
          } else {
            config := config.(entries := config.entries[CONFIG_KEY_DISPLAY_TYPE := Text(CONFIG_VALUE_DISPLAY_TOC)]);
            config := config.(entries := config.entries[CONFIG_KEY_COLUMNS := Number(1)]);
          }
          config := config.(version := 3);
        }
        if config.version < 4 {
          if CONFIG_KEY_DELIVERYOPTIONS !in config.entries {
            config := config.(entries := config.entries[CONFIG_KEY_DELIVERYOPTIONS := Delivery(DefaultWithGlossary)]);
          }
          config := config.(version := 4);
        }
      }
    }

    /** isConfigValid(): the cached verdict when there is one, otherwise the
        missing-file error exactly when the display type is "file" and the
        file name is null or blank. */
    function IsConfigValid(): (sd: StatusDescription)
      reads this
      requires oneClickStatusCache.None? || |oneClickStatusCache.value| > 0
      ensures oneClickStatusCache.Some? ==> sd == oneClickStatusCache.value[0]
      ensures oneClickStatusCache.None? ==>
        (sd.Error? <==> StringValue(config.entries, CONFIG_KEY_DISPLAY_TYPE) == Some(CONFIG_VALUE_DISPLAY_FILE)
                        && !ContainsNonWhitespace(StringValue(config.entries, CONFIG_KEY_FILE)))
      ensures oneClickStatusCache.None? && sd.Error? ==> sd == MissingFileError(shortTitle, ident)
    {
      if oneClickStatusCache.Some? then oneClickStatusCache.value[0]
      else if StringValue(config.entries, CONFIG_KEY_DISPLAY_TYPE) == Some(CONFIG_VALUE_DISPLAY_FILE) then
        var fileName := StringValue(config.entries, CONFIG_KEY_FILE);
        if fileName.None? || !HasText(fileName.value) then MissingFileError(shortTitle, ident)
        else NoError
      else NoError
    }

    /** getConditionExpressions: the conditions of the base class
        (`parents`), then the non-blank passed, score and failed conditions
        of the calculator, which is created first when missing; the three
        conditions are left in expert mode. */
    method GetConditionExpressions(parents: seq<ConditionExpression>) returns (retVal: seq<ConditionExpression>)
      modifies this`scoreCalculator, this`passedExpression, this`scoreExpression, this`failedExpression
      ensures retVal == parents + ActiveConditions(CalculatorOrNew(old(scoreCalculator)))
      ensures scoreCalculator == Some(CalculatorOrNew(old(scoreCalculator)))
      ensures var calculator := CalculatorOrNew(old(scoreCalculator));
        passedExpression == Some(Condition(PASSED_ID, calculator.passedExpression, true))
        && scoreExpression == Some(Condition(SCORE_ID, calculator.scoreExpression, true))
        && failedExpression == Some(Condition(FAILED_ID, calculator.failedExpression, true))
    {
      retVal := parents;
      var calculator := GetScoreCalculator();
      ghost var p, sc, f := ActiveCondition(PASSED_ID, calculator.passedExpression),
        ActiveCondition(SCORE_ID, calculator.scoreExpression), ActiveCondition(FAILED_ID, calculator.failedExpression);

      passedExpression := Some(passedExpression.value.(expertMode := true));
      retVal := AddIfActive(retVal, passedExpression.value);
      assert retVal == parents + p;

      scoreExpression := Some(scoreExpression.value.(expertMode := true));
      retVal := AddIfActive(retVal, scoreExpression.value);
      assert retVal == parents + p + sc;

      failedExpression := Some(failedExpression.value.(expertMode := true));
      retVal := AddIfActive(retVal, failedExpression.value);
      assert retVal == parents + p + sc + f;

      assert ActiveConditions(calculator) == p + sc + f;
      assert parents + p + sc + f == parents + (p + sc + f);
    }

    /** One step of getConditionExpressions: the condition is added when its
        expression is non-blank. */
    static method AddIfActive(list: seq<ConditionExpression>, condition: Condition) returns (r: seq<ConditionExpression>)
      ensures r == list + ActiveCondition(condition.conditionId, condition.conditionExpression)
    {
      r := list;
      var coS := condition.conditionExpression;
      if coS.Some? && HasText(coS.value) {
        r := r + [ConditionExpression(condition.conditionId, coS.value)];
      }
    }
  }

  /** The list getConditionExpressions returns starts with the parents'
      conditions and holds one of the calculator's conditions exactly when
      its expression is non-blank, unless a parent condition has that id. */
  lemma ConditionExpressionsListed(parents: seq<ConditionExpression>, calculator: ScoreCalculator, id: string)
    requires id == PASSED_ID || id == SCORE_ID || id == FAILED_ID
    ensures var all := parents + ActiveConditions(calculator);
      all[..|parents|] == parents
      && (id in ConditionIds(all) <==> id in ConditionIds(parents) || ContainsNonWhitespace(ExpressionOf(calculator, id)))
  {
    var active := ActiveConditions(calculator);
    var all := parents + active;
    assert all[..|parents|] == parents;
    assert forall x :: x in all <==> x in parents || x in active;
    assert ConditionIds(all) == ConditionIds(parents) + ConditionIds(active);
  }
}
