/**
 * The closed choice sets of the `fabric` subcommands: each maps the option
 * values a user may type to the integer code stored in the request.
 */
module Choices {
  import opened Wrappers
  import opened Labels

  /** One entry of a choice set: the name typed, the code it stands for, its help text. */
  datatype Choice = Choice(name: string, code: nat, help: string)

  /**
   * The code a choice set gives a typed name: that of the first entry with
   * that name, or None when no entry has it (the parser then rejects the
   * option).
   */
  function Resolve(table: seq<Choice>, name: string): (r: Option<nat>)
    ensures r.None? <==> forall i :: 0 <= i < |table| ==> table[i].name != name
    ensures r.Some? ==> exists i :: 0 <= i < |table| && table[i].name == name && table[i].code == r.value
                                    && forall j :: 0 <= j < i ==> table[j].name != name
  {
    if |table| == 0 then None
    else if table[0].name == name then Some(table[0].code)
    else
      var r := Resolve(table[1..], name);
      assert forall i :: 1 <= i < |table| ==> table[i] == table[1..][i - 1];
      r
  }

  /** The codes a choice set can produce: what the parser may store for the option. */
  function Codes(table: seq<Choice>): set<nat>
  {
    set i | 0 <= i < |table| :: table[i].code
  }

  /** No two entries of a choice set share a name. */
  predicate DistinctNames(table: seq<Choice>)
  {
    forall i, j :: 0 <= i < j < |table| ==> table[i].name != table[j].name
  }

  /** With distinct names, every entry's name resolves to that entry's code. */
  lemma ResolveEntry(table: seq<Choice>, i: nat)
    requires DistinctNames(table)
    requires i < |table|
    ensures Resolve(table, table[i].name) == Some(table[i].code)
  {
  }

  /** `port_control --control_type`. */
  const CONTROL_TYPE_CHOICES: seq<Choice> := [
    Choice("DISABLE", 0, "disable port"),
    Choice("ENABLE", 1, "enable port"),
    Choice("RETRAIN", 2, "link retrain"),
    Choice("HOT_RESET", 3, "link hot reset")
  ]

  /** `port_control --hot_reset_flag`. */
  const HOT_RESET_FLAG_CHOICES: seq<Choice> := [
    Choice("CLEAR", 0, "hot reset status clear"),
    Choice("SET", 1, "hot reset status set")
  ]

  /** `portcfg_set --port_type`: Fabric Link is deliberately absent. */
  const PORT_TYPE_CHOICES: seq<Choice> := [
    Choice("UNUSED", 0, PORT_TYPE_STRS[PORT_TYPE_UNUSED]),
    Choice("FABRIC_EP", 2, PORT_TYPE_STRS[PORT_TYPE_FABRIC_EP]),
    Choice("FABRIC_HOST", 3, PORT_TYPE_STRS[PORT_TYPE_FABRIC_HOST])
  ]

  /** `portcfg_set --clock_mode`. */
  const CLOCK_MODE_CHOICES: seq<Choice> := [
    Choice("COMMON", 0, CLOCK_MODE_STRS[CLOCK_COMMON_WO_SSC]),
    Choice("SRNS", 1, CLOCK_MODE_STRS[CLOCK_NON_COMMON_WO_SSC]),
    Choice("COMMON_SSC", 2, CLOCK_MODE_STRS[CLOCK_COMMON_W_SSC]),
    Choice("SRIS", 3, CLOCK_MODE_STRS[CLOCK_NON_COMMON_W_SSC])
  ]

  /** In each of the four choice sets no two entries share a name, so every entry is reachable by its name. */
  lemma ChoiceNamesDistinct()
    ensures DistinctNames(CONTROL_TYPE_CHOICES) && DistinctNames(HOT_RESET_FLAG_CHOICES)
    ensures DistinctNames(PORT_TYPE_CHOICES) && DistinctNames(CLOCK_MODE_CHOICES)
    ensures forall i :: 0 <= i < |CLOCK_MODE_CHOICES| ==>
      Resolve(CLOCK_MODE_CHOICES, CLOCK_MODE_CHOICES[i].name) == Some(CLOCK_MODE_CHOICES[i].code)
    ensures forall i :: 0 <= i < |PORT_TYPE_CHOICES| ==>
      Resolve(PORT_TYPE_CHOICES, PORT_TYPE_CHOICES[i].name) == Some(PORT_TYPE_CHOICES[i].code)
  {
    assert "SRNS"[2] != "SRIS"[2];
    forall i | 0 <= i < |CLOCK_MODE_CHOICES| {
      ResolveEntry(CLOCK_MODE_CHOICES, i);
    }
    forall i | 0 <= i < |PORT_TYPE_CHOICES| {
      ResolveEntry(PORT_TYPE_CHOICES, i);
    }
  }

  /** The control type set is exactly DISABLE, ENABLE, RETRAIN, HOT_RESET with codes 0 to 3. */
  lemma ControlTypeChoiceMap(name: string)
    ensures Resolve(CONTROL_TYPE_CHOICES, name) ==
      if name == "DISABLE" then Some(0)
      else if name == "ENABLE" then Some(1)
      else if name == "RETRAIN" then Some(2)
      else if name == "HOT_RESET" then Some(3)
      else None
    ensures Codes(CONTROL_TYPE_CHOICES) == {0, 1, 2, 3}
  {
    var t := CONTROL_TYPE_CHOICES;
    assert t[0].code == 0 && t[1].code == 1 && t[2].code == 2 && t[3].code == 3;
  }

  /** The hot reset flag set is exactly CLEAR and SET with codes 0 and 1. */
  lemma HotResetFlagChoiceMap(name: string)
    ensures Resolve(HOT_RESET_FLAG_CHOICES, name) ==
      if name == "CLEAR" then Some(0)
      else if name == "SET" then Some(1)
      else None
    ensures Codes(HOT_RESET_FLAG_CHOICES) == {0, 1}
  {
  }

  /**
   * The port type set is exactly UNUSED, FABRIC_EP and FABRIC_HOST with
   * codes 0, 2 and 3: no typed name yields Fabric Link, and each entry's
   * help text is the label of its own code.
   */
  lemma PortTypeChoiceMap(name: string)
    ensures Resolve(PORT_TYPE_CHOICES, name) ==
      if name == "UNUSED" then Some(PORT_TYPE_UNUSED)
      else if name == "FABRIC_EP" then Some(PORT_TYPE_FABRIC_EP)
      else if name == "FABRIC_HOST" then Some(PORT_TYPE_FABRIC_HOST)
      else None
    ensures Resolve(PORT_TYPE_CHOICES, name) != Some(PORT_TYPE_FABRIC_LINK)
    ensures Codes(PORT_TYPE_CHOICES) == {0, 2, 3}
    ensures forall i :: 0 <= i < |PORT_TYPE_CHOICES| ==>
      PORT_TYPE_CHOICES[i].help == PortTypeLabel(PORT_TYPE_CHOICES[i].code)
  {
    var t := PORT_TYPE_CHOICES;
    assert t[0].code == 0 && t[1].code == 2 && t[2].code == 3;
  }

  /**
   * The clock mode set is exactly COMMON, SRNS, COMMON_SSC and SRIS with
   * the distinct codes 0 to 3, and each help text is the label shown for
   * that code.
   */
  lemma ClockModeChoiceMap(name: string)
    ensures Resolve(CLOCK_MODE_CHOICES, name) ==
      if name == "COMMON" then Some(CLOCK_COMMON_WO_SSC)
      else if name == "SRNS" then Some(CLOCK_NON_COMMON_WO_SSC)
      else if name == "COMMON_SSC" then Some(CLOCK_COMMON_W_SSC)
      else if name == "SRIS" then Some(CLOCK_NON_COMMON_W_SSC)
      else None
    ensures Codes(CLOCK_MODE_CHOICES) == {0, 1, 2, 3}
    ensures forall i, j :: 0 <= i < j < |CLOCK_MODE_CHOICES| ==>
      CLOCK_MODE_CHOICES[i].code != CLOCK_MODE_CHOICES[j].code
    ensures forall i :: 0 <= i < |CLOCK_MODE_CHOICES| ==>
      CLOCK_MODE_CHOICES[i].help == ClockModeLabel(CLOCK_MODE_CHOICES[i].code)
  {
    var t := CLOCK_MODE_CHOICES;
    assert t[0].code == 0 && t[1].code == 1 && t[2].code == 2 && t[3].code == 3;
    assert "SRNS"[2] != "SRIS"[2];
  }
}
