/** Small helper datatype shared by the other modules. */
module Wrappers {
  datatype Option<T> = None | Some(value: T)
}

/**
 * The port-role and clock-mode enumerations the switch reports, the two
 * label tables `portcfg_show` prints from, and the clamp-then-index rule
 * that turns any device-reported code into one of those labels.
 */
module Labels {

  // Port roles (the switch's port type enumeration).
  const PORT_TYPE_UNUSED: nat := 0
  const PORT_TYPE_FABRIC_LINK: nat := 1
  const PORT_TYPE_FABRIC_EP: nat := 2
  const PORT_TYPE_FABRIC_HOST: nat := 3
  const PORT_TYPE_INVALID: nat := 4

  // Clock modes (the switch's clock mode enumeration).
  const CLOCK_COMMON_WO_SSC: nat := 0
  const CLOCK_NON_COMMON_WO_SSC: nat := 1
  const CLOCK_COMMON_W_SSC: nat := 2
  const CLOCK_NON_COMMON_W_SSC: nat := 3
  const CLOCK_INVALID: nat := 4

  /** Display label of each port type; the last slot is the Invalid sentinel's. */
  const PORT_TYPE_STRS: seq<string> := [
    "Unused",
    "Fabric Link",
    "Fabric EP",
    "Fabric Host",
    "Invalid"
  ]

  /** Display label of each clock mode; the last slot is the Invalid sentinel's. */
  const CLOCK_MODE_STRS: seq<string> := [
    "Common clock without SSC",
    "Non-common clock without SSC (SRNS)",
    "Common clock with SSC",
    "Non-common clock with SSC (SRIS)",
    "Invalid"
  ]

  /**
   * The index `portcfg_show` looks a reported port type up at: a code at or
   * above the Invalid sentinel is replaced by the sentinel, so the lookup is
   * in bounds whatever the device reports.
   */
  function PortTypeIndex(code: nat): (i: nat)
    ensures i < |PORT_TYPE_STRS|
    ensures code < PORT_TYPE_INVALID ==> i == code
    ensures code >= PORT_TYPE_INVALID ==> i == PORT_TYPE_INVALID
  {
    if code >= PORT_TYPE_INVALID then PORT_TYPE_INVALID else code
  }

  /** The same clamp for a reported clock mode. */
  function ClockModeIndex(code: nat): (i: nat)
    ensures i < |CLOCK_MODE_STRS|
    ensures code < CLOCK_INVALID ==> i == code
    ensures code >= CLOCK_INVALID ==> i == CLOCK_INVALID
  {
    if code >= CLOCK_INVALID then CLOCK_INVALID else code
  }

  /**
   * The label printed for a reported port type: always an entry of the
   * table, the code's own entry when the code is in range, and "Invalid"
   * exactly when it is not.
   */
  function PortTypeLabel(code: nat): (text: string)
    ensures text in PORT_TYPE_STRS
    ensures code < PORT_TYPE_INVALID ==> text == PORT_TYPE_STRS[code]
    ensures text == "Invalid" <==> code >= PORT_TYPE_INVALID
  {
    PORT_TYPE_STRS[PortTypeIndex(code)]
  }

  /** The label printed for a reported clock mode, with the same guarantees. */
  function ClockModeLabel(code: nat): (text: string)
    ensures text in CLOCK_MODE_STRS
    ensures code < CLOCK_INVALID ==> text == CLOCK_MODE_STRS[code]
    ensures text == "Invalid" <==> code >= CLOCK_INVALID
  {
    CLOCK_MODE_STRS[ClockModeIndex(code)]
  }

  /** The port type labels, code by code. */
  lemma PortTypeDisplay(code: nat)
    ensures code == PORT_TYPE_UNUSED ==> PortTypeLabel(code) == "Unused"
    ensures code == PORT_TYPE_FABRIC_LINK ==> PortTypeLabel(code) == "Fabric Link"
    ensures code == PORT_TYPE_FABRIC_EP ==> PortTypeLabel(code) == "Fabric EP"
    ensures code == PORT_TYPE_FABRIC_HOST ==> PortTypeLabel(code) == "Fabric Host"
    ensures code >= PORT_TYPE_INVALID ==> PortTypeLabel(code) == "Invalid"
  {
  }

  /** The clock mode labels, code by code. */
  lemma ClockModeDisplay(code: nat)
    ensures code == CLOCK_COMMON_WO_SSC ==> ClockModeLabel(code) == "Common clock without SSC"
    ensures code == CLOCK_NON_COMMON_WO_SSC ==> ClockModeLabel(code) == "Non-common clock without SSC (SRNS)"
    ensures code == CLOCK_COMMON_W_SSC ==> ClockModeLabel(code) == "Common clock with SSC"
    ensures code == CLOCK_NON_COMMON_W_SSC ==> ClockModeLabel(code) == "Non-common clock with SSC (SRIS)"
    ensures code >= CLOCK_INVALID ==> ClockModeLabel(code) == "Invalid"
  {
  }

  /**
   * No two slots of the port type table share a label, so the printed
   * label tells exactly which slot the reported code was clamped to.
   */
  lemma PortTypeLabelsDistinct(a: nat, b: nat)
    ensures PortTypeLabel(a) == PortTypeLabel(b) <==> PortTypeIndex(a) == PortTypeIndex(b)
  {
  }

  /** The same for the clock mode table. */
  lemma ClockModeLabelsDistinct(a: nat, b: nat)
    ensures ClockModeLabel(a) == ClockModeLabel(b) <==> ClockModeIndex(a) == ClockModeIndex(b)
  {
  }
}
