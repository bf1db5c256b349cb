/** The rule-log record `generate_yaml_file` appends to
    `agent_interactions.yaml` (the function is duplicated, line for line, in
    both scripts).  The file itself is not read or written here: what
    `yaml.safe_load` made of it is an input, and the list to be dumped is the
    result. */
module RuleLog {
  import opened Wrappers
  import Text

  datatype Observation = Observation(
    observationId: string,
    timestamp: string,
    message: string,
    iterations: string,
    context: string,
    significance: string)

  datatype RuleEntry = RuleEntry(
    ruleId: string,
    timestamp: string,
    message: string,
    implementedBy: string,
    status: string,
    observations: seq<Observation>)

  /** A document `yaml.safe_load` returned: an empty file (`None`), a document
      without a `message_history.rules` list, or one with it. */
  datatype Document = EmptyDocument | WithoutRuleList | WithRules(rules: seq<RuleEntry>)

  /** The outcome of opening and parsing the log file. */
  datatype LoadedFile = FileNotFound | InvalidYaml | Parsed(doc: Document)

  /** The exceptions that escape `generate_yaml_file`: subscripting `None`,
      and a missing key. */
  datatype LogError = TypeError | KeyError

  /** The rule id: "RULE_" and the number padded to three digits. */
  function RuleId(n: nat): string {
    "RULE_" + Text.Format03d(n)
  }

  /** The observation id: "OBS_", the padded number, then "_001". */
  function ObservationId(n: nat): string {
    "OBS_" + Text.Format03d(n) + "_001"
  }

  /** The record for the n-th rule. */
  function NewRule(n: nat, timestamp: string, message: string): RuleEntry {
    RuleEntry(RuleId(n), timestamp, message, "AgentSHV and AgentVSH", "active",
              [Observation(ObservationId(n), timestamp, "", "", "Initial interaction phase", "High")])
  }

  /** The rule list after loading: a missing or unparseable file counts as an
      empty list; an empty document or one without the list raises. */
  function ExistingRules(loaded: LoadedFile): Result<seq<RuleEntry>, LogError> {
    match loaded
    case FileNotFound => Success([])
    case InvalidYaml => Success([])
    case Parsed(EmptyDocument) => Failure(TypeError)
    case Parsed(WithoutRuleList) => Failure(KeyError)
    case Parsed(WithRules(rules)) => Success(rules)
  }

  /** The rule list `generate_yaml_file` dumps back to the file. */
  function AppendedLog(loaded: LoadedFile, timestamp: string, message: string): (r: Result<seq<RuleEntry>, LogError>)
    ensures r.Success? ==> |r.value| >= 1 && r.value[|r.value| - 1] == NewRule(|r.value|, timestamp, message)
  {
    match ExistingRules(loaded)
    case Failure(e) => Failure(e)
    case Success(rules) => Success(rules + [NewRule(|rules| + 1, timestamp, message)])
  }

  /** The record-building part of `generate_yaml_file`: load, then append the
      new record to the loaded list. */
  method GenerateRuleLog(loaded: LoadedFile, timestamp: string, message: string)
    returns (r: Result<seq<RuleEntry>, LogError>)
    ensures r == AppendedLog(loaded, timestamp, message)
  {
    var rules: seq<RuleEntry>;
    match loaded {
      case FileNotFound => rules := [];
      case InvalidYaml => rules := [];
      case Parsed(doc) =>
        match doc {
          case EmptyDocument =>
            assert AppendedLog(loaded, timestamp, message) == Failure(TypeError);
            return Failure(TypeError);
          case WithoutRuleList =>
            assert AppendedLog(loaded, timestamp, message) == Failure(KeyError);
            return Failure(KeyError);
          case WithRules(existing) => rules := existing;
        }
    }
    assert ExistingRules(loaded) == Success(rules);
    var newRule := NewRule(|rules| + 1, timestamp, message);
    rules := rules + [newRule];
    r := Success(rules);
  }

  /** The new record comes after every existing one, which are left as they
      were; it is numbered one past their count; and the only failures are
      the two malformed documents. */
  lemma AppendedLog_Appends(loaded: LoadedFile, timestamp: string, message: string)
    ensures AppendedLog(loaded, timestamp, message).Failure? <==>
            loaded == Parsed(EmptyDocument) || loaded == Parsed(WithoutRuleList)
    ensures ExistingRules(loaded).Success? ==>
              var before := ExistingRules(loaded).value;
              var r := AppendedLog(loaded, timestamp, message).value;
              && |r| == |before| + 1
              && r[..|before|] == before
              && r[|before|].ruleId == RuleId(|before| + 1)
              && r[|before|].observations[0].observationId == ObservationId(|before| + 1)
              && r[|before|].message == message
  {
  }

  /** A missing or unparseable file gives a one-rule log numbered 001. */
  lemma AppendedLog_FreshFile(loaded: LoadedFile, timestamp: string, message: string)
    requires loaded == FileNotFound || loaded == InvalidYaml
    ensures AppendedLog(loaded, timestamp, message) == Success([NewRule(1, timestamp, message)])
    ensures NewRule(1, timestamp, message).ruleId == "RULE_001"
    ensures NewRule(1, timestamp, message).observations[0].observationId == "OBS_001_001"
  {
    assert Text.DigitChar(1) == '1';
    assert Text.Decimal(1) == "1";
    assert Text.Zeros(2) == "00" by {
      assert Text.Zeros(1) == "0" + Text.Zeros(0);
    }
    assert Text.Format03d(1) == "001";
    assert RuleId(1) == "RULE_001";
    assert ObservationId(1) == "OBS_001_001";
    assert ExistingRules(loaded) == Success([]);
    var rule1 := NewRule(1, timestamp, message);
    assert [] + [rule1] == [rule1];
  }

  /** The padded number in a rule id reads back as the rule's number, and
      the observation id carries the same padded number. */
  lemma RuleId_Number(n: nat)
    ensures Text.StartsWith(RuleId(n), "RULE_")
    ensures Text.AllDigits(RuleId(n)[5..]) && Text.ParseDecimal(RuleId(n)[5..]) == n
    ensures |RuleId(n)| >= 8 && (|RuleId(n)| == 8 <==> n < 1000)
    ensures ObservationId(n) == "OBS_" + RuleId(n)[5..] + "_001"
  {
    assert RuleId(n)[5..] == Text.Format03d(n);
    Text.Format03d_RoundTrip(n);
    Text.Format03d_Width(n);
  }

  /** Distinct rule numbers give distinct rule ids and observation ids. */
  lemma Ids_Injective(m: nat, n: nat)
    requires m != n
    ensures RuleId(m) != RuleId(n)
    ensures ObservationId(m) != ObservationId(n)
  {
    RuleId_Number(m);
    RuleId_Number(n);
    var a, b := ObservationId(m), ObservationId(n);
    assert a[4..|a| - 4] == Text.Format03d(m);
    assert b[4..|b| - 4] == Text.Format03d(n);
    Text.Format03d_RoundTrip(m);
    Text.Format03d_RoundTrip(n);
  }

  /** A log every record of which was appended by `generate_yaml_file`: the
      k-th record (from 0) is rule k + 1. */
  predicate Sequential(rules: seq<RuleEntry>) {
    forall k :: 0 <= k < |rules| ==>
      rules[k].ruleId == RuleId(k + 1)
      && |rules[k].observations| == 1
      && rules[k].observations[0].observationId == ObservationId(k + 1)
  }

  /** A sequential log never repeats a rule id or an observation id. */
  lemma Sequential_Distinct(rules: seq<RuleEntry>)
    requires Sequential(rules)
    ensures forall i, j :: 0 <= i < j < |rules| ==> rules[i].ruleId != rules[j].ruleId
    ensures forall i, j :: 0 <= i < j < |rules| ==>
              rules[i].observations[0].observationId != rules[j].observations[0].observationId
  {
    forall i, j | 0 <= i < j < |rules|
      ensures rules[i].ruleId != rules[j].ruleId
      ensures rules[i].observations[0].observationId != rules[j].observations[0].observationId
    {
      Ids_Injective(i + 1, j + 1);
    }
  }

  /** Appending keeps a log sequential, so a log built only by this function
      never repeats a rule id or an observation id. */
  lemma AppendedLog_KeepsSequential(rules: seq<RuleEntry>, timestamp: string, message: string)
    requires Sequential(rules)
    ensures var r := AppendedLog(Parsed(WithRules(rules)), timestamp, message).value;
            && Sequential(r)
            && (forall i, j :: 0 <= i < j < |r| ==> r[i].ruleId != r[j].ruleId)
            && (forall i, j :: 0 <= i < j < |r| ==>
                  r[i].observations[0].observationId != r[j].observations[0].observationId)
  {
    var r := rules + [NewRule(|rules| + 1, timestamp, message)];
    assert AppendedLog(Parsed(WithRules(rules)), timestamp, message).value == r;
    assert Sequential(r) by {
      forall k | 0 <= k < |r|
        ensures r[k].ruleId == RuleId(k + 1) && |r[k].observations| == 1
        ensures r[k].observations[0].observationId == ObservationId(k + 1)
      {
        if k < |rules| {
          assert r[k] == rules[k];
        }
      }
    }
    Sequential_Distinct(r);
  }
}
