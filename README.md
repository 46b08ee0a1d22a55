# Switchtec `fabric` command group — a Dafny model

This project models the `fabric` subcommands of the Switchtec PCIe switch
management CLI (`cli/fabric.c`): `gfms_bind`, `gfms_unbind`, `port_control`,
`portcfg_set` and `portcfg_show`. It has two parts.

- **Choice and label tables** (`choices.dfy`, `labels.dfy`). These are pure
  data with functions over it. The closed choice sets map option names to
  integer codes, and `Resolve` gives each table's meaning: the code of the
  first entry with the typed name. The port-type and clock-mode label tables
  each have five entries. `portcfg_show` clamps any reported code at or above
  the Invalid sentinel (4) down to the sentinel before it indexes a table.
  The lemmas prove that this lookup is always in bounds, that it is the
  identity on the codes 0 to 3, and that "Invalid" is printed exactly for
  codes from 4 up. They also prove that the choice sets are exactly the ones
  the source lists, and that no `--port_type` name yields Fabric Link
  (code 1). Each `portcfg_set` help text is the label `portcfg_show` prints
  for that code, and the labels are pairwise distinct. As a result the
  printed report pins down the reported configuration up to the clamp.
- **Handlers above an opaque switch** (`fabric.dfy`). Each handler is a
  method over a request record (what the option parser filled in) and a
  `Session`. The session holds the switch as an oracle, the list of requests
  sent to it, and the terminal output. Each handler's contract says three
  things: it sends exactly one request, carrying the parsed fields unchanged;
  it returns the switch's status unchanged, so 0 on success and the nonzero
  code otherwise; and it prints only the error report on failure.
  `portcfg_show` also has a usage gate. A port id still at its initial -1
  prints the usage text and returns 1, with no request sent. Otherwise it
  prints the four report lines built from the reply.

The switch is the function `device: (seq<Call>, Call) -> Reply`. Its reply
to a request may depend on everything sent to it before. The model therefore
assumes nothing about the hardware: no set/get agreement, no stable reads and
no binding table. The handlers keep no state of their own, and neither does
the model. The enumeration codes come from `switchtec/fabric.h`, which is not
part of this model. They are taken as UNUSED=0, FABRIC_LINK=1, FABRIC_EP=2,
FABRIC_HOST=3, Invalid=4, and clock modes 0 to 3 with Invalid=4. This
agrees with the code literals in the choice tables and the index order of the
label tables.

Behaviour of the option parser is written as preconditions on the request
record. A choice-typed field holds a code of its choice set. `portcfg_show`'s
port id is either -1 (option absent) or non-negative, because the parser
rejects negative values.

`--clock_source` and `--hvd_id` of `portcfg_set` are marked
`require_in_usage` (cli/fabric.c:216-226), so both are always fields of the
model's request record.

## Model

| member | source | states |
|---|---|---|
| `Labels.PortTypeIndex` | cli/fabric.c:274-276 | the clamped port-type index is always below 5 (in bounds of the label table), equals the code for codes below 4, and equals the Invalid sentinel 4 for every code from 4 up |
| `Labels.ClockModeIndex` | cli/fabric.c:281-283 | the same clamp for clock modes: index always below 5, identity below 4, the sentinel 4 otherwise |
| `Labels.PortTypeLabel` | cli/fabric.c:274-278 | the printed port-type label is always an entry of the table, is the code's own entry for codes 0..3, and is "Invalid" if and only if the code is at least 4 |
| `Labels.ClockModeLabel` | cli/fabric.c:281-285 | the printed clock-mode label is always an entry of the table, is the code's own entry for codes 0..3, and is "Invalid" if and only if the code is at least 4 |
| `Labels.PortTypeDisplay` | cli/fabric.c:159-165 | codes 0, 1, 2, 3 display as "Unused", "Fabric Link", "Fabric EP", "Fabric Host"; every code from 4 up displays as "Invalid" |
| `Labels.ClockModeDisplay` | cli/fabric.c:167-173 | codes 0..3 display as "Common clock without SSC", "Non-common clock without SSC (SRNS)", "Common clock with SSC", "Non-common clock with SSC (SRIS)"; every code from 4 up as "Invalid" |
| `Labels.PortTypeLabelsDistinct` | cli/fabric.c:159-165 | two reported port types print the same label if and only if they clamp to the same index |
| `Labels.ClockModeLabelsDistinct` | cli/fabric.c:167-173 | two reported clock modes print the same label if and only if they clamp to the same index |
| `Choices.Resolve` | cli/fabric.c:136-145 | a typed name resolves to None exactly when no entry has that name, and otherwise to the code of the first entry with that name |
| `Choices.ResolveEntry` | cli/fabric.c:136-145 | for any choice set whose names are distinct, each entry's name resolves to that entry's code |
| `Choices.ChoiceNamesDistinct` | cli/fabric.c:114-199 | the four choice sets (control_type, hot_reset_flag, port_type, clock_mode) each have pairwise distinct names, so every port_type and clock_mode entry resolves by its own name to its own code |
| `Choices.ControlTypeChoiceMap` | cli/fabric.c:114-120 | control_type names resolve exactly as DISABLE→0, ENABLE→1, RETRAIN→2, HOT_RESET→3, every other name to None; the codes are exactly {0,1,2,3} |
| `Choices.HotResetFlagChoiceMap` | cli/fabric.c:121-125 | hot_reset_flag names resolve exactly as CLEAR→0, SET→1, every other name to None; the codes are exactly {0,1} |
| `Choices.PortTypeChoiceMap` | cli/fabric.c:180-188 | port_type names resolve exactly as UNUSED→0, FABRIC_EP→2, FABRIC_HOST→3, every other name to None; no name yields Fabric Link (1); the codes are exactly {0,2,3}; each help text is the label portcfg_show prints for its code |
| `Choices.ClockModeChoiceMap` | cli/fabric.c:189-199 | clock_mode names resolve exactly as COMMON→0, SRNS→1, COMMON_SSC→2, SRIS→3, every other name to None; the codes are pairwise distinct and exactly {0,1,2,3}; each help text is the label printed for its code |
| `Fabric.Displayed` | cli/fabric.c:274-283 | the configuration as reported keeps clock source and domain index verbatim and holds both enumerations as in-bounds indices |
| `Fabric.ShowLinesShape` | cli/fabric.c:278-286 | the report `ShowLines` builds is exactly four lines named, in order, Port Type, Clock Source, Clock Mode, Hvd Instance; clock source and Hvd instance are printed verbatim, the two enumerations as entries of their label tables |
| `Fabric.ShowLinesExact` | cli/fabric.c:274-286 | two reported configurations print the same four lines if and only if they are equal after clamping |
| `Fabric.GfmsBindCmd` | cli/fabric.c:39-74 | sends exactly one bind request carrying the parsed request unchanged; returns the switch's status unchanged (0 on success); prints a "gfms_bind" device error exactly when the status is nonzero |
| `Fabric.GfmsUnbindCmd` | cli/fabric.c:76-108 | sends exactly one unbind request carrying the parsed host reference unchanged; returns the switch's status unchanged; prints a "gfms_unbind" device error exactly when the status is nonzero |
| `Fabric.PortControlCmd` | cli/fabric.c:110-157 | sends exactly one port-control request with the parsed control type, port id and hot reset flag unchanged (control type ≤ 3, flag ≤ 1); returns the switch's status unchanged; prints a "port_control" device error exactly when it is nonzero |
| `Fabric.PortcfgSetCmd` | cli/fabric.c:175-239 | sends exactly one config-set request with the parsed port id and whole configuration unchanged, whose port type is never Fabric Link and whose clock mode is a valid mode; returns the switch's status unchanged; prints a "port_config" device error exactly when it is nonzero |
| `Fabric.PortcfgShowCmd` | cli/fabric.c:241-289 | with the port id still -1: prints usage, returns 1 and sends nothing; otherwise sends exactly one get request for that port, returns the switch's status unchanged, and prints the four report lines of the reply on success or a "port_info" device error on failure |

## Left out

- Option parsing (`argconfig_parse`, enforcement of required options and of choice sets, `argconfig_print_usage`'s text): its source is not part of this model. What it guarantees is written as preconditions on the request records, and printing the usage text is the single `Usage` output item.
- `Choices.Resolve`: the exact name matching of the option parser (case sensitivity, what `CFG_MULT_CHOICES` does with several names) is not part of this model. Resolution is modelled as exact match to the first entry with that name.
- The library calls `switchtec_gfms_bind`, `switchtec_gfms_unbind`, `switchtec_port_control`, `switchtec_fab_port_config_set` and `switchtec_fab_port_config_get`. They are foreign calls to the hardware, so each is one `Call` answered by the opaque `device` oracle.
- Reported port types and clock modes are taken as unsigned (`nat`), so the model cannot show that the clamps at cli/fabric.c:275 and cli/fabric.c:282 guard only the upper bound. If the struct declared these fields signed (its header is not part of this model), a negative code would index before the start of the label table.
- Link states, bindings and the stored port configuration are held in the switch, not in the CLI. The model keeps none of them, so it states no round trip, symmetry or idempotence.
- `switchtec_perror` message text, the exact whitespace of the `printf` formats, and decimal rendering of numbers: these are I/O. The model records a tagged `DeviceError(op)` and `Field(name, value)` items, and interleaves standard output and standard error in one `console`.
- Device selection (`DEVICE_OPTION`) and command registration (`commands[]`, `REGISTER_SUBCMD`, cli/fabric.c:291-307) are dispatch plumbing.
- C representation details: `CFG_INT` options written into `uint8_t` fields do not truncate in the model. Those fields are 0..255 values (`Byte`), and the widths of the library's request and configuration structs (not part of this model) are left unbounded. The `static` request structs persist across invocations within one process and so could carry values over; each request record here is fresh.
- The subcommand description strings (`desc`) are not modelled. That includes `gfms_bind`'s, which says "Unbind".
