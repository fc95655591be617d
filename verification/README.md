# Internet link status: a verified model

This project models the decision logic of a Home Assistant integration that
watches one or more Internet uplinks. It asks "what is my public address"
services (Google, OpenDNS or Akamai DNS, or a file for testing) through
each link, and from the answers derives:
- whether each link is up;
- whether the traffic has failed over to another link;
- the overall Internet status.

The repository holds three generations of this engine, and all three are
modelled:

- **The current engine** (`custom_components/internet_status/coordinator.py`).
  - Links are built from the configuration. Names are made unique by slug, and only one link may be primary: a second primary is demoted to secondary.
  - Each link probes when it is due and keeps an expected ("configured") address and a three-valued `link_up`.
  - A coordinator tick updates every link and derives the Internet status. The status table has seven outcomes, but as written the shared-address test can never succeed, so "failover" is never reported and only six occur (see "## Findings"; the model's tick uses the corrected table). On the first "up" tick the primary and the secondaries learn their current addresses, then the next tick is scheduled.
  - Modules: `InternetLinks` (`internet_link.dfy`, the link class) and `StatusCoordinator` (`coordinator.dfy`).
- **The per-link binary sensor** (`custom_components/internet_status/binary_sensor.py`).
  - One probe per update, then a state machine over `link_up`, `link_failover`, the configured and the current address.
  - An update that changes nothing on an already updated sensor writes nothing.
  - Module: `LinkStatusSensor` (`link_sensor.dfy`).
- **The original sensor** (`sensor.py`).
  - A primary, a secondary and a VPN probe feed a decision table.
  - Expected addresses are learned while both links are up on distinct addresses.
  - The VPN is checked by reverse lookup.
  - Module: `WanCheck` (`wan_check.dfy`).

Two more modules are shared:
- `Answers` (`answers.dfy`): how a DNS reply, a reverse lookup or a probe file is decoded into an address.
- `Common` (`common.dfy`): option types, link roles and probe kinds, Python truthiness, `in` on strings, `rstrip`, slicing and the mean.

The network, the file system and the clock are not modelled. One DNS query
is a `DnsReply` value (an exception, or records and an elapsed time). One
reverse lookup is a `PtrAnswer`. A probe file is its text. The current time
is an integer parameter `now`.

Where the state is updated in place, the model is a class with the same
fields: `InternetLinks.Link`, `StatusCoordinator.Coordinator`,
`LinkStatusSensor.LinkSensor` and `WanCheck.WanCheckSensor`. Each method is
proved against a function on a value view of that state: `LinkView`,
`SensorState` or `WanState`. The properties are proved as lemmas about those
functions.

## Model

| member | source | states |
|---|---|---|
| Common.RStrip | custom_components/internet_status/binary_sensor.py:263 | the result is a prefix of the input that does not end in whitespace, and everything cut off is whitespace |
| Common.ContainsIffWindow | custom_components/internet_status/binary_sensor.py:358 | Python's substring test holds exactly when the needle occupies some window of the text |
| Common.Mean | custom_components/internet_status/binary_sensor.py:339 | the mean is None exactly when there are no samples |
| Common.MeanWithinBounds | custom_components/internet_status/coordinator.py:427-428 | the mean of the samples lies between any lower and upper bound of the samples |
| Common.DecimalString | custom_components/internet_status/coordinator.py:83 | the decimal notation used in default link names is non-empty, ends in the digit `n % 10`, and has one digit exactly below 10 |
| Common.DecimalInjective | custom_components/internet_status/coordinator.py:83 | distinct numbers have distinct decimal notations |
| Answers.DecodeTxt | custom_components/internet_status/coordinator.py:482-487 | an answer starting with the edns prefix is cut as `txt[20:-3]` (empty when too short); any other text is the address |
| Answers.EdnsRoundTrip | custom_components/internet_status/coordinator.py:484-485 | "edns0-client-subnet", a separator, a subnet and a 3-character mask decode back to the subnet |
| Answers.LastTxtAnswer | custom_components/internet_status/binary_sensor.py:278-284 | the TXT loop yields None for no records, otherwise the decoded last record |
| Answers.LastAddressAnswer | custom_components/internet_status/binary_sensor.py:287-292 | the A-record loop without `break` yields None for no records, otherwise the last record |
| Answers.LegacyAnswer | custom_components/internet_status/binary_sensor.py:269-310 | a DNS exception, an empty answer or a kind without a probe give None; Google gives the decoded last TXT record; OpenDNS and Akamai give the last A record |
| Answers.LegacyDnsProbe | custom_components/internet_status/binary_sensor.py:269-310 | the record loops of `send_dns_probe` compute `LegacyAnswer` |
| Answers.FileAnswer | custom_components/internet_status/binary_sensor.py:260-267 | the stripped text "None" means no address; any other stripped text is the address |
| Answers.FileAnswerRoundTrip | custom_components/internet_status/binary_sensor.py:262-265 | an address other than "None" written with trailing whitespace is read back unchanged |
| Answers.AttemptAppended | custom_components/internet_status/binary_sensor.py:324-330 | one more attempt replaces the address exactly when it succeeds, and then adds exactly its elapsed time to the samples |
| Answers.LastIpIsLastSuccess | custom_components/internet_status/binary_sensor.py:324-335 | no address exactly when every attempt failed, exactly when there are no samples; otherwise the address is that of an attempt after which all failed |
| InternetLinks.ServiceAnswer | custom_components/internet_status/coordinator.py:475-518 | Google takes the decoded last TXT record; OpenDNS and Akamai take the first A record (they `break`); no records give None |
| InternetLinks.Verdict | custom_components/internet_status/coordinator.py:433-438 | down exactly without an address; up exactly when no address is expected or the expected one is seen; unknown exactly when another address is seen |
| InternetLinks.ReverseMatches | custom_components/internet_status/coordinator.py:440-459 | a failed lookup fails the check; otherwise it passes exactly when the host name occurs in the PTR name |
| InternetLinks.UpdateTimeGate | custom_components/internet_status/coordinator.py:305-316 | a link that is not due is left unchanged; a due link is next due `scan_interval` after `now`; the due time never moves back |
| InternetLinks.UpdateOncePerInstant | custom_components/internet_status/coordinator.py:305-316 | with a positive scan interval, a second update at the same instant changes nothing, whatever it observes |
| InternetLinks.ProbedVerdictConsistent | custom_components/internet_status/coordinator.py:330-339 | after a probe, the link is down exactly when it has no address, and unknown exactly when it sees an address other than the expected one |
| InternetLinks.DnsProbeOutcome | custom_components/internet_status/coordinator.py:394-438 | no address exactly when every attempt failed, exactly when there is no rtt; the rtt lies between the fastest and the slowest sample |
| InternetLinks.RttExample | custom_components/internet_status/coordinator.py:412-428 | an illustration of DnsProbeOutcome: three successes of 10, 20 and 30 ms give the samples [10, 20, 30] and an rtt of 20 |
| InternetLinks.FileProbeLearns | custom_components/internet_status/coordinator.py:322-339 | a file link takes the first address it reads as expected and is up exactly when nothing else was expected |
| InternetLinks.ConfiguredIpCommands | custom_components/internet_status/coordinator.py:286-299 | a configured address is never touched; setting twice is setting once, and the same for clearing; after setting, the current address is up; after clearing, every address is up; neither leaves `link_up` unknown |
| InternetLinks.Link.File | custom_components/internet_status/coordinator.py:266-284 | a new file link expects nothing, has no address and is due at once |
| InternetLinks.Link.Dns | custom_components/internet_status/coordinator.py:347-375 | a new DNS link keeps its settings, and its configured address is protected exactly when it is truthy |
| InternetLinks.Link.EnableRtt | custom_components/internet_status/coordinator.py:383-388 | rtt reporting gets its interval and is due at once; nothing else changes |
| InternetLinks.Link.SetConfiguredIp | custom_components/internet_status/coordinator.py:286-292 | the new state is `SetConfigured` of the old one |
| InternetLinks.Link.ClearConfiguredIp | custom_components/internet_status/coordinator.py:294-299 | the new state is `ClearConfigured` of the old one |
| InternetLinks.Link.ProbeFile | custom_components/internet_status/coordinator.py:322-339 | the new state is `FileProbed` of the old one, and the verdict is that of the new addresses |
| InternetLinks.Link.SendDnsProbe | custom_components/internet_status/coordinator.py:475-518 | one query of the link's service yields `ServiceAnswer` of its records |
| InternetLinks.Link.ProbeDns | custom_components/internet_status/coordinator.py:394-438 | the retry loop leaves the state `DnsProbed` of the old one (last successful address, one sample per success, their mean), and the verdict is that of the new addresses |
| InternetLinks.Link.Update | custom_components/internet_status/coordinator.py:305-316 | probes exactly when due, and the new state is `Updated` of the old one, including the reverse check of a DNS link that came up |
| StatusCoordinator.Kept | custom_components/internet_status/coordinator.py:93-169 | only buildable configurations are kept, in order |
| StatusCoordinator.PlanShape | custom_components/internet_status/coordinator.py:93-190 | the buildable configurations are registered in order; each keeps its role, except that a primary may be demoted to secondary; at most one link is primary |
| StatusCoordinator.PlanPrimaryIff | custom_components/internet_status/coordinator.py:171-193 | a primary exists exactly when some buildable configuration declares one |
| StatusCoordinator.Inherited | custom_components/internet_status/coordinator.py:89-91 | a link setting is the link's own value when present, else the top-level value when present, else the default |
| StatusCoordinator.NumberedSlugSeparates | custom_components/internet_status/coordinator.py:80-87 | a slug function that maps "Link <k>" to a fixed prefix followed by k, as `slugify` does, tells default names apart |
| StatusCoordinator.IdentitySeparates | custom_components/internet_status/coordinator.py:80-87 | the identity tells default names apart, so the naming precondition of construction can be met |
| StatusCoordinator.TakenDefaultsBound | custom_components/internet_status/coordinator.py:84-86 | with slugs that tell default names apart, at most as many consecutive default names are taken as there are slugs, so the naming loop ends |
| StatusCoordinator.UniqueName | custom_components/internet_status/coordinator.py:79-87 | the result is the first free name among the link's own name (when given) and then "Link <id>" for `id` from the counter on: it is free (neither it nor its slug is taken) and every name tried before it was taken; the own name is kept when free |
| StatusCoordinator.FirstFreeUnique | custom_components/internet_status/coordinator.py:79-87 | the first free name and its number are determined by the names taken, the given name and the counter |
| StatusCoordinator.BuildLink | custom_components/internet_status/coordinator.py:104-163 | the new link has the kind of its probe type, the inherited scan interval, retries and timeout, and the initial state (with rtt reporting when configured) |
| StatusCoordinator.StatusTextInjective | custom_components/internet_status/coordinator.py:210-229 | the seven status texts are pairwise distinct |
| StatusCoordinator.Status | custom_components/internet_status/coordinator.py:202-229 | Failover exactly when the primary is up, every secondary is up and a secondary has the primary's address; Up exactly when the same holds with no secondary on that address |
| StatusCoordinator.StatusTable | custom_components/internet_status/coordinator.py:210-224 | Down, degraded (primary down), failover to other, failover to secondary and degraded (secondary down), each exactly in its case |
| StatusCoordinator.StatusPartition | custom_components/internet_status/coordinator.py:210-229 | the primary is up exactly when the status is Up, Failover or degraded (secondary down); Down means no secondary is up |
| StatusCoordinator.StatusAsWritten | custom_components/internet_status/coordinator.py:225 | the status as written never reports Failover, and differs from `Status` only by reporting Up where Failover is meant |
| StatusCoordinator.SharedAddressCounterexample | custom_components/internet_status/coordinator.py:225-233 | a primary and a secondary both up on 203.0.113.7: Up as written, Failover as meant |
| StatusCoordinator.StatusWithoutSecondaries | custom_components/internet_status/coordinator.py:207-224 | without secondaries the status is Up exactly when the primary is up, and Down exactly when it is down |
| StatusCoordinator.OfTypeMembers | custom_components/internet_status/coordinator.py:171-184 | a role list holds exactly the links of that role |
| StatusCoordinator.RegistryAppend | custom_components/internet_status/coordinator.py:171-189 | registering a link with a free name and slug, which is not a second primary, keeps names, links and slugs aligned, slugs unique and the role lists exact |
| StatusCoordinator.UpdateAll | custom_components/internet_status/coordinator.py:198-200 | every link is updated once with its own observation and is not due before `now` afterwards |
| StatusCoordinator.SetConfiguredAll | custom_components/internet_status/coordinator.py:250-254 | every link in the list learns its current address |
| StatusCoordinator.ClearConfiguredAll | custom_components/internet_status/coordinator.py:256-260 | every link in the list forgets its expected address |
| StatusCoordinator.Coordinator.RoleLists | custom_components/internet_status/coordinator.py:171-187 | every link is in the role list of its type and in no other; the secondaries are distinct |
| StatusCoordinator.Coordinator.Empty | custom_components/internet_status/coordinator.py:59-72 | a new coordinator has no links, no status and no learning done |
| StatusCoordinator.Coordinator.Create | custom_components/internet_status/coordinator.py:73-193 | construction fails with "no primary link defined" exactly when no buildable configuration declares a primary; otherwise link k is built from plan entry k and is in its initial state |
| StatusCoordinator.Coordinator.Register | custom_components/internet_status/coordinator.py:171-189 | the link is stored under its name and slug and appended to the list of its role; the registry invariant is kept |
| StatusCoordinator.Coordinator.InitLinks | custom_components/internet_status/coordinator.py:76-193 | the links are the plan of the configuration, in order, each in its initial state; a primary was found exactly when the plan has one; the counter starts at 1 and stays above the number of links |
| StatusCoordinator.Coordinator.AddLink | custom_components/internet_status/coordinator.py:94-190 | one pass of the loop names the configuration with the first free name from the counter on, registers it under that name exactly when it is buildable (extending the links by one plan step), and moves the counter one past the name's number only then (`link_id += 1`) |
| StatusCoordinator.Coordinator.AddBuilt | custom_components/internet_status/coordinator.py:171-190 | a buildable configuration is registered under its name with its role, demoted when a primary exists |
| StatusCoordinator.Coordinator.SetConfiguredIp | custom_components/internet_status/coordinator.py:250-254 | the primary and the secondaries learn their current addresses; monitor-only links are unchanged |
| StatusCoordinator.Coordinator.ClearConfiguredIp | custom_components/internet_status/coordinator.py:256-260 | the primary and the secondaries forget their expected addresses; monitor-only links are unchanged |
| StatusCoordinator.Coordinator.UpdateLinks | custom_components/internet_status/coordinator.py:198-200 | every link ends in `Updated` of its old state, the primary and the secondaries included |
| StatusCoordinator.Coordinator.NextInterval | custom_components/internet_status/coordinator.py:239-247 | the wait is the earliest of the coordinator's own interval and every link's next update, plus one second |
| StatusCoordinator.Coordinator.Refresh | custom_components/internet_status/coordinator.py:195-229 | after every link is updated, the status is the corrected `Status` of the updated primary and secondaries; the code as written reports the same, except Up where this is Failover |
| StatusCoordinator.Coordinator.Conclude | custom_components/internet_status/coordinator.py:230-247 | the first Up status sets the learning flag, and the primary and the secondaries learn their addresses; the status is stored; the wait is between 1 s and the own interval plus 1 s |
| StatusCoordinator.Coordinator.Tick | custom_components/internet_status/coordinator.py:195-247 | a whole tick: the updated links, their corrected status (and how the status as written differs), learning on the first Up, and the next wait |
| LinkStatusSensor.ReverseCheck | custom_components/internet_status/binary_sensor.py:346-370 | None exactly when the lookup fails; true exactly when the host name occurs in the PTR name |
| LinkStatusSensor.Decide | custom_components/internet_status/binary_sensor.py:389-434 | the current address becomes the probed one, and the expected address is kept or, when there was none, learned from the probe |
| LinkStatusSensor.Unreachable | custom_components/internet_status/binary_sensor.py:427-428 | no probed address: down, with the failover flag and the expected address kept |
| LinkStatusSensor.SameAddress | custom_components/internet_status/binary_sensor.py:431-434 | the same address again: up exactly when not failed over, nothing else changes, and the reverse lookup is not consulted |
| LinkStatusSensor.FailoverTransitions | custom_components/internet_status/binary_sensor.py:412-422 | on a new address that passed the reverse check: an unexpected address fails the link over and keeps it down; the expected address clears a failover; another address keeps a failed-over link down |
| LinkStatusSensor.ReverseCheckFailed | custom_components/internet_status/binary_sensor.py:399-408 | a new address that fails the reverse check, or whose lookup fails, leaves that verdict and changes neither the flag nor the expected address |
| LinkStatusSensor.LearnsOnlyWhenMonitoring | custom_components/internet_status/binary_sensor.py:409-411 | the expected address changes exactly when a monitor-only link without one sees a new address that passed the reverse check |
| LinkStatusSensor.UpHasAddress | custom_components/internet_status/binary_sensor.py:395-434 | a link that is up has an address; after a new address, a link that is up and not failed over sees the expected address or expects none |
| LinkStatusSensor.SettlesAfterTwo | custom_components/internet_status/binary_sensor.py:395-443 | after two updates that probe the same address, a third decides the same state, so it writes nothing |
| LinkStatusSensor.ConfiguredIpCommand | custom_components/internet_status/binary_sensor.py:499-509 | the expected address changes exactly when none is expected and there is a current one, or when forced and they differ; a second call changes nothing |
| LinkStatusSensor.OnValue | custom_components/internet_status/binary_sensor.py:226-228 | `link_up and not link_failover`: unknown exactly when `link_up` is unknown, on exactly when up and not failed over, off when down |
| LinkStatusSensor.IsOnAfterUpdate | custom_components/internet_status/binary_sensor.py:226-228 | after any update, a sensor that is on has a probed address, and one that probed no address is off, not unknown |
| LinkStatusSensor.LinkSensor.constructor | custom_components/internet_status/binary_sensor.py:144-177 | a new sensor is not yet updated, in an unknown state, not failed over, with the configured address |
| LinkStatusSensor.LinkSensor.IsOn | custom_components/internet_status/binary_sensor.py:226-228 | the entity is unknown exactly while `link_up` is unknown, and on exactly when the link is up and not failed over |
| LinkStatusSensor.LinkSensor.DnsProbe | custom_components/internet_status/binary_sensor.py:312-339 | `retries` attempts: the address of the last successful one, one sample per success in order, the rtt as their mean, and no address exactly when there are no samples |
| LinkStatusSensor.LinkSensor.Probe | custom_components/internet_status/binary_sensor.py:383-386 | a file link reads the probe file; any other link runs the DNS probe and reports its rtt |
| LinkStatusSensor.LinkSensor.Update | custom_components/internet_status/binary_sensor.py:377-477 | the new state is `Decide` of the old one and the probed address; it is written exactly when it changed or the sensor was not yet updated; the time of the address change is taken for every new address |
| LinkStatusSensor.LinkSensor.Apply | custom_components/internet_status/binary_sensor.py:389-477 | the state machine of `update` for a given probed address, with the early return when nothing changed |
| LinkStatusSensor.LinkSensor.SetFailover | custom_components/internet_status/binary_sensor.py:479-487 | the link is failed over afterwards; the state is published exactly when the flag changed on an updated sensor |
| LinkStatusSensor.LinkSensor.ClearFailover | custom_components/internet_status/binary_sensor.py:489-497 | the failover flag is cleared afterwards; the state is published exactly when the flag changed on an updated sensor |
| LinkStatusSensor.LinkSensor.SetConfiguredIp | custom_components/internet_status/binary_sensor.py:499-516 | the current address becomes the expected one exactly when none is expected, or when forced and they differ; the change time is taken when one expected address replaces another |
| WanCheck.StatusTextsInjective | sensor.py:268-289 | the status texts are pairwise distinct |
| WanCheck.NormaliseConfigured | sensor.py:86-92 | an empty configured address means none; any other is kept |
| WanCheck.ProbeKind | sensor.py:200-219 | only "google", "opendns" and "akamai" name a probe |
| WanCheck.SensorAnswer | sensor.py:190-225 | an unknown probe type or an exception gives None; otherwise the answer decodes exactly as the binary sensor's probe of the same kind |
| WanCheck.Table | sensor.py:253-289 | link statuses are never left unknown by an update |
| WanCheck.PrimaryDown | sensor.py:268-275 | no primary address: degraded (primary down), or down with both links down when the secondary has none either |
| WanCheck.SecondaryDown | sensor.py:276-280 | a primary address without a secondary one: degraded (secondary down) with the secondary down |
| WanCheck.SharedAddress | sensor.py:281-289 | one address on both links: failover (primary down) when it is the secondary's expected one, else failover (secondary down) when it is the primary's, else failover |
| WanCheck.UpIff | sensor.py:253-289 | up exactly when both links have distinct addresses, and then both links are up; the expected addresses matter only when the addresses are shared |
| WanCheck.Learn | sensor.py:291-302 | an address other than "unknown" becomes the expected one; the flag is raised exactly when it replaces a different expected address |
| WanCheck.LearnIdempotent | sensor.py:291-302 | learning the same address again changes nothing and raises no flag |
| WanCheck.VpnStatus | sensor.py:236-250 | unknown unless a host name is set, the VPN address is truthy and not "unknown", and the lookup succeeds; then up exactly when the host name occurs in the PTR name |
| WanCheck.NextMeaning | sensor.py:227-302 | an update stores the probed addresses and the table's statuses; an expected address changes only when the status is up; each flag says that this update replaced a different expected address |
| WanCheck.RepeatedUpdate | sensor.py:253-302 | a second update with the same addresses changes nothing but lowers both flags, and a third changes nothing |
| WanCheck.Attributes | sensor.py:170-188 | seven keys always; the primary current address, the secondary expected address and the VPN address only while the primary, the secondary and the VPN are up |
| WanCheck.WanCheckSensor.constructor | sensor.py:145-153 | every status starts unknown except the VPN status, which starts down; no address, no flag |
| WanCheck.WanCheckSensor.Setup | sensor.py:78-104 | the sensor is built with the configured addresses normalised |
| WanCheck.WanCheckSensor.DnsProbe | sensor.py:190-225 | the record loops compute `SensorAnswer` |
| WanCheck.WanCheckSensor.Update | sensor.py:227-302 | the new state is `Next` of the old one and the three probed addresses |
| WanCheck.WanCheckSensor.CheckVpn | sensor.py:236-250 | the VPN address is stored and the VPN status is `VpnStatus` |
| WanCheck.WanCheckSensor.Decide | sensor.py:253-289 | the statuses are reset, then the table and the learning give `Decided` of the old state |
| WanCheck.WanCheckSensor.LearnAddresses | sensor.py:290-302 | each expected address and flag become `Learn` of the probed address and the old expected address |
| WanCheck.WanCheckSensor.StateText | sensor.py:165-168 | the state text is "up" exactly when the overall status is up |

## Left out

- Network, file system and clock: DNS queries, reverse lookups and the probe file are input values, and time is an integer `now`. One tick of the coordinator uses one `now` for every link.
- Pacing sleeps between DNS attempts (coordinator.py:425-426, binary_sensor.py:331-332): they change no state. The stale or unbound `rtt` read in the coordinator's pacing test is left out with them.
- Rounding of rtt values to three decimals (`round(..., 3)`): samples and their mean are exact reals.
- The coordinator's `TaskGroup` runs the link updates concurrently. The model updates them one after the other, which gives the same result because each link changes only its own state.
- StatusCoordinator.Coordinator.Create: requires the slug function to tell default names "Link <k>" apart, as `slugify` does ("link_k"). Without that, the naming loop need not end.
- The coordinator's demotion of a second primary (coordinator.py:177) assigns `link_type` after the link is built. The model builds the link with its effective role instead.
- A file link also carries the inherited retries and timeout, which it never uses; the model gives it the defaults.
- A missing probe type: a configuration without one is skipped like an unknown type. The crash where a file link logs `file_path` before assigning it (coordinator.py:110-117) is not modelled.
- The coordinator reads the probe file as `fileh.read().rstrip()` on an awaitable (coordinator.py:328). The model reads the text and strips it.
- The primary is "up" in the coordinator when `link_up and reverse_hostname is not False` (coordinator.py:202-205). `reverse_hostname` is never `False`, so `reverse_ok` is never consulted. The model follows the code: the reverse check is recorded but does not affect the status.
- The next wait of the coordinator is a running minimum of the due times plus one second (coordinator.py:239-247). No pass changes one link because of another: failover is only a status. `set_configured_ip` on a link without an address keeps the expected one (coordinator.py:286-292). The learning flag `_configured_ip_updated` is set once and never reset (coordinator.py:230-237, 256-260).
- StatusCoordinator.Coordinator.Refresh / Tick: follow the corrected status table (`Status`), not line 225 as written. On an up primary that shares its address with up secondaries they report Failover and learn nothing, where the code as written reports "up" and, on the first such tick, makes the primary and the secondaries learn their addresses. Their `ensures` state the status as written (`StatusAsWritten`) beside the corrected one; the learning that follows the as-written "up" is not modelled.
- Sensor probe hosts: their resolution in the constructors (binary_sensor.py:192-213, sensor.py:114-143) is I/O and is not modelled. `WanCheckSensor` therefore holds no probe servers.
- Home Assistant glue is not modelled: entity registration and `setup_entry`, icons, unique ids, `extra_state_attributes` of the binary sensor, and notifying the parent sensor. Publishing is reduced to the `wrote`/`published` results: `schedule_update_ha_state` runs when a write happens on an already updated sensor.
- LinkStatusSensor.LinkSensor.DnsProbe: the rtt report is returned instead of being written to the rtt entity looked up in `hass.data`.
- `custom_components/internet_status/sensor.py` is not part of this model: its entity wrappers only publish what the coordinator computes.
- The Google TXT decoding takes `rdata.strings[0]` of each record. A record whose text cannot be decoded raises, and the whole query counts as a DNS exception in the model.
- `sensor.py`'s `dns_probe` catches every exception after the loop, so an address decoded from an earlier record of the same answer would survive a later failing record. The model treats the whole answer as one reply.
- The attribute `isp_ip_updated` (sensor.py:26) is declared but never published, so it is not modelled.

## Findings

| source | as written | input that shows it | evidently intended | confidence | as-written member | corrected member |
|---|---|---|---|---|---|---|
| custom_components/internet_status/coordinator.py:225 | `primary_ip in [secondaries_ip]` tests membership in a one-element list that holds the iterator of secondary addresses, so it is always false and "failover" is never reported | a primary and one secondary, both up on 203.0.113.7: reported "up" (and learning is triggered) | `primary_ip in secondaries_ip`: "failover" when the up primary shares an address with a secondary | not executed | StatusCoordinator.StatusAsWritten | StatusCoordinator.Status |
