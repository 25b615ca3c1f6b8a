# Verified model of bypath

bypath runs a proxy engine (sing-box, xray, ...) for a link taken from a profile
store, and can act as a transparent gateway for a LAN. This project models the
parts of it where many steps have to fit together, and proves what they are for:

* **Gateway lifecycle** (`Engines.dfy`, `Passes.dfy`, `Gateway.dfy`, `Reload.dfy`):
  `Start` nests passes (native TUN, one native retry, legacy) over links over engines.
  The outside world (does a process start, does its port open, do the checks pass, is
  tun0 there) answers freely each time it is asked, and keeps a journal of questions,
  answers and engine starts. Whatever it answers, at most one engine is ever alive, it
  is the recorded one, the journal is that of passes, links and engines tried in
  order, and a successful start ends with a flag that tells the truth about the TUN
  device.
* **Host files** (`ResolvConf.dfy`, `HostPins.dfy`, `HostNames.dfy`): the takeover of
  `/etc/resolv.conf` under crashes between any two file operations, and the pins in
  `/etc/hosts`, with what a resolver reads there before and after.
* **Routing compiler** (`Routing.dfy`, `SingboxRoute.dfy`, `XrayRoute.dfy`,
  `XrayMeaning.dfy`, `LegacyRoute.dfy`, `SplitDns.dfy`, `ConfigGen.dfy`,
  `Closure.dfy`): rule lists have a meaning of their own; the sing-box and xray
  sections compiled from them have first-match semantics; compilation preserves the
  meaning, for xray exactly when no misread text can make a difference.
  `ConfigGen.dfy` holds the generator's loops, each tied to the function whose
  properties are proved. Matchers and geo files stay abstract: a `Net` value says
  which addresses are private, which suffix covers which name and what each geo file
  matches.
* **Multi-hop chains** (`Outbounds.dfy`, `HopPath.dfy`, `Carrying.dfy`, `Chains.dfy`): a
  chain in one process is a walk along detours; a chain of processes is joined through
  ports that are printed into strings and read back. Both are started and rolled back.
  Processes read their config files at moments that nothing waits for, and compete for
  ports with whatever else runs; `Carrying.dfy` says when a chain works nevertheless.
* **Profile store** (`Groups.dfy`, `Effects.dfy`, `Profiles.dfy`): groups in memory
  mirrored in files, what each operation does to them element by element, and the
  `.active` file that is printed, parsed and rewritten on rename.
* **Byte and string protocols** (`LocalDns.dfy`, `Socks.dfy`): the suffix dispatch of
  the built-in DNS forwarder, and SOCKS5 (RFC 1928, sections 4 to 6) and DNS over TCP
  (RFC 1035, section 4.2.2) framing.

`Text.dfy` and `Links.dfy` hold strings and links. Where the program works by steps
the model has classes and methods with loops, each proved equal to a function of
its input or old state; what the program promises is then proved of the function.
What a function comes to is also said without it, by quantifiers and with the texts
and numbers of the program written out: in the contract of the method, or in a lemma
whose name ends in `Means`, `Mean` or `Iff`.

`dafny verify dfyconfig.toml` checks the whole project.

## What the proofs show about the code

Some expectations turned out false of the code. The model keeps the code as it is,
and a lemma says exactly when the expectation holds.

* Unpinning does not restore a hosts file that holds nothing but pins: one line
  break stays (`HostPins.PinsComeOffIff`; `HostPins.UnpinPinned` for every file).
* Pinning a host takes out the pin of every other host whose line contains its name:
  after `eu.vpn.example.com`, pinning `vpn.example.com` leaves the first one without its
  pin (`HostPins.FirstPinStaysIff`). A pin is written at the end of the file, so a line
  for the same host that is no pin goes on to answer for it (`HostPins.PinnedResolves`).
* `Stop` also restores resolv.conf when it was never taken over, as after a start
  with native TUN, and then replaces it by two public resolvers
  (`ResolvConf.StopWithoutTakeOver`). That is the only way in which runs of starts,
  stops and crashes lose the original (`ResolvConf.NeverLostIff`), and it does not come
  back (`ResolvConf.SurvivesIff`).
* An original resolv.conf that is empty or names 127.0.0.1 does not come back
  (`ResolvConf.CycleRestoresIff`).
* The DNS section captures its server list (internal/tunnel/configgen.go:461) before
  the local servers are appended to it (internal/tunnel/configgen.go:562), so every
  active local DNS rule refers to a server that is not defined
  (`SplitDns.ServersDefinedIff`).
* A direct `geoip` rule is put into the DNS section without a look at its file
  (`SplitDns.DnsTagsDefinedIff`), and so are all whitelisted countries in the route
  section without routing rules (`LegacyRoute.LegacyFilesExistIff`).
  `Closure.ConfigClosedIff` puts all conditions together for a whole configuration.
* xray takes an `ip_cidr` text that begins with `geoip:`, `ext:` or `ext-ip:` for geo
  data, sing-box does not (`XrayRoute.CidrFaithfulIff`). The xray section means what
  the rules mean, and the engines agree, exactly for those lists in which that makes
  no difference (`XrayMeaning.RouteMeansRulesIff`, `XrayMeaning.EnginesAgreeIff`).
* Without a default resolver a tunnel resolver whose server is given by name could be
  needed to look up that very name; the generated sections always name a default
  resolver, which prevents it (`SplitDns.NoCircleIff`, `Closure.GeneratedHasNoCircle`).
* A reload compares lists after joining them with commas, so a change from an empty
  list to one with an empty entry, or the splitting of an entry at its comma, is not
  reported (`Reload.JoinedEqualIff`, `Reload.MistakenIff`).
* An active link is not found again after a restart when its group's name has outer
  white space or a line break, or its remark goes on after its first line
  (`Groups.ActiveLinkIsFoundIff`).
* Renaming a group loses the active link when the link's remark is blank, when the
  old name is empty, or when the new name has outer white space or a line break
  (`Groups.RenameKeepsActiveIff`).
* A link that was a later hop of a chain keeps its upstream proxy. Used as the first
  hop of another chain it dials back into that chain, which then has no way out
  (`HopPath.ConnectionPassesAllIff`, `HopPath.LeftoverUpstream`).
* All sing-box hops have their config in the same file, which the next one overwrites
  without waiting. A hop that has not read it by then runs the config of the next hop.
  So only chains of one hop, or of an xray or ssh hop and a sing-box hop, are sure to
  work; [ssh, vmess, vless] is not (`Carrying.CarriesIff`, `Carrying.ShortChainsOnly`).
* All chains listen from port 10800 on, also those in one process, and nobody checks
  that a hop got its port. A second chain is therefore reported as running while
  connections to its ports go through the first (`Carrying.OneChainAtATime`).
* Hops after the first that do not run sing-box ignore their upstream, so such a
  chain does not pass through all of its hops (`HopPath.ConnectionPassesAllIff`).
* A hop whose process exited by itself keeps the status "running" when its chain is
  stopped (`Chains.Manager.StopChain`), and a tunnel with that status is not started
  again (`Chains.Manager.StartTunnel`).
* Starting a chain in several processes does not look at the chains already
  registered and replaces one of the same name (`Chains.Manager.StartMulti`).
* `forwardViaSocks` reads ten bytes of the reply whatever its address type; that is
  the whole reply only for IPv4 and for names of three bytes (`Socks.TenBytesIff`).
* The comment on `GenerateChainConfig` says that a detour points to the next hop and
  that the last hop has none; in the code it points to the previous hop and the first
  has none. The model follows the code.

## Model

| member | source | states |
|---|---|---|
| Engines.EngineOrderIsComplete | internal/engine/fallback.go:152-170 | for every configuration and preference: without a preferred engine exactly the configured order, which is sing-box and xray only if none is configured; a preferred one comes first, and then the configured engines other than it, at each place where they stand, in that order |
| Engines.FallbackController.OrderOf | internal/engine/fallback.go:152-170 | the loop gives that order, for every configuration, with and without a preferred engine |
| Engines.FallbackController.TryEngine | internal/engine/fallback.go:110-149 | the world's journal shows the questions and the one launch of this try in order, each asked only after a yes to the one before; it succeeds exactly when the port answer was yes; a failed try leaves no process alive, a successful one exactly the process returned, in gateway mode only for sing-box |
| Engines.AttemptLoggedMeans | internal/engine/fallback.go:110-149 | for each stage at which a try can end, what exactly it has asked of the world and started |
| Engines.FallbackController.StartWithFallback | internal/engine/fallback.go:60-106 | attempt i is for engine i of the order above, in gateway mode only for sing-box; by the journal those before the winner were tried once each and without a yes from their port, the winner with a yes, none after it; with fallback disabled only the first is tried, else none is left untried before giving up; on failure nothing is alive |
| Gateway.Gateway.constructor | internal/gateway/gateway.go:65-88 | a new gateway records no engine and its flag is down |
| Gateway.Gateway.StartEmbedded | internal/gateway/gateway.go:738-775 | a built-in engine is recorded only if it runs, and the flag goes up exactly when it owns a TUN device |
| Gateway.Gateway.RunEmbedded | internal/gateway/gateway.go:738-775 | the journal shows one try of the built-in engine, which runs exactly when the last answer was yes |
| Gateway.Gateway.StartEngine | internal/gateway/gateway.go:691-798 | built-in engine first, then the fallback order: by the journal, launches go in order up to the first that is ready, and all of them before it fails; on failure nothing is alive or changed |
| Passes.EmbeddedPlanMeans | internal/gateway/gateway.go:743-751 | the built-in engine looked for is the preferred one, else the first configured, else sing-box, and it is tried only if it is built in |
| Passes.LaunchPlanMeans | internal/gateway/gateway.go:691-798 | after it come all engines of the fallback order as separate processes, or the first one with fallback disabled; a config in gateway mode is for sing-box only |
| Gateway.Gateway.StopEngine | internal/gateway/gateway.go:471-490 | whichever handle holds the engine, afterwards none is alive and none recorded |
| Gateway.Gateway.StartLink | internal/gateway/gateway.go:535-570 | a link works exactly when its first ready engine gets a yes from one of at most three connectivity checks, all of it in the journal; otherwise that engine is gone again, while the flag may stay up |
| Passes.CheckMeans | internal/gateway/gateway.go:535-570 | up to two failed checks and then a good one, or three failed ones, as entries of the journal |
| Gateway.Gateway.StartPass | internal/gateway/gateway.go:496-530 | by the journal, the given link and then the eligible links of its group were tried in order up to the first that works, each once; a fallback link that works becomes the active one |
| Gateway.Gateway.CandidatesMean | internal/gateway/gateway.go:496-528 | what follows a failed link comes from its own group, or from the active one if it has none, and is nothing if there is no such group |
| Passes.EligibleMeans | internal/gateway/gateway.go:510-528 | for every group: exactly the links with another remark, a port of at least 10 and an address other than the empty one and 0.0.0.0 follow, in the order of the group |
| Gateway.Gateway.TryGroup | internal/gateway/gateway.go:510-528 | the loop over the group skips the given link and unusable ones and nothing else, and the journal shows the tries of the others in order |
| Gateway.Gateway.RestartAsLegacy | internal/gateway/gateway.go:471-490 | stops the engine and adds one legacy pass, with no launch in gateway mode, where the order of passes asks for one; it ends with the flag down and the configuration as it was, whether or not it succeeds |
| Gateway.Gateway.StartEngineWithFallback | internal/gateway/gateway.go:435-467 | the journal shows complete passes, each launch in the mode of its pass, and nothing else; each pass is the one that is to follow and none is left to make; the flag says exactly whether some link of the native passes had an engine in gateway mode; the configuration is unchanged on every path |
| Gateway.Gateway.ConfirmTun | internal/gateway/gateway.go:117-139 | the world is asked for tun0, and a legacy pass follows exactly when it is missing; afterwards the flag is exact: a flag left up by a link that failed is found out, because no device exists then |
| Gateway.Gateway.GetActiveLink | internal/gateway/gateway.go:412-433 | the persisted link if there is one, else the first usable link of some group, which becomes the active one, and none only if no group has a usable link |
| Gateway.Gateway.Start | internal/gateway/gateway.go:91-214 | ends with one engine alive, the recorded one, and a truthful flag, or with none alive and ready to be called again; the journal shows the network question, the passes in the order described below, each with its mode, and the answers about tun0, with a bounded number of engine starts; the given link is the active one, or one of some group when there was none; the configuration is unchanged |
| Gateway.Gateway.Stop | internal/gateway/gateway.go:217-260 | afterwards no engine is alive, from every state that is not broken |
| Gateway.Gateway.Reload | internal/gateway/gateway.go:264-300 | a setting is reported exactly when it changed, lists up to the commas they are joined with; a reload starts and stops no engine and asks nothing, a truthful flag stays truthful and a gateway ready to start stays so |
| Reload.JoinedEqualIff | internal/gateway/gateway.go:281-286 | for all lists: joined with commas they are equal exactly when they have the same pieces between commas |
| Reload.MistakenIff | internal/gateway/gateway.go:281-286 | among different lists without commas only the empty one and the one with one empty entry count as unchanged |
| Reload.LocalDnsChanged | internal/gateway/gateway.go:1528-1541 | the loop finds a difference exactly when number, servers or domain pieces differ |
| Gateway.Session | cmd/bypath/cmd_run.go:128-157 | over a whole run of retries, reloads and a stop, two engines are never alive together and none survives |
| Passes.BudgetOfConfig | internal/engine/fallback.go:60-106 | in terms of the configuration: three times (1 + links of the group) times (2 + engines of the order) |
| Passes.LaunchBudget | internal/gateway/gateway.go:435-467 | for every journal: after three passes at most three times candidates times launches more engine starts are in it |
| Passes.TriedMeans | internal/gateway/gateway.go:496-570 | in a pass link k is candidate k, its engines were tried in launch order and all of them before it was given up, and only the last link tried may have worked |
| Passes.PassesOverMean | internal/gateway/gateway.go:435-530 | in every pass of a start, link k is candidate k and was tried with the launches of the mode of that pass; only a native pass of an enabled gateway is in gateway mode; no pass stops before a link works or all have failed |
| Passes.RaisesMeans | internal/gateway/gateway.go:760-798 | the flag goes up in a pass exactly when some engine that became ready was in gateway mode |
| Passes.PassesMean | internal/gateway/gateway.go:114-139 | one to three passes: the first is native exactly when native TUN is configured; a second native pass is made exactly in a full build whose first one failed; a legacy pass comes last, after a native one that failed or left no tun0; a native pass that is the last one worked and its tun0 was not missing; tun0 is asked for exactly after a pass that worked with the flag up |
| Passes.AtMostThree | internal/gateway/gateway.go:435-467 | in that order of passes there are never more than three |
| Engines.AttemptsStartOnce | internal/engine/fallback.go:60-149 | the journal of n tries holds at most n engine starts |
| ResolvConf.ResolvFiles.SetResolvConf | internal/gateway/gateway.go:1387-1408 | carries out the file operations of the takeover, in order: afterwards the file names 127.0.0.1 only, and the backup is the old text unless that named 127.0.0.1 |
| ResolvConf.ResolvFiles.RestoreResolvConf | internal/gateway/gateway.go:1412-1426 | carries out the file operations of the restoration, in order: a backup that is not empty takes the place of the file and is gone, else the file names 8.8.8.8 and 1.1.1.1 |
| ResolvConf.ResolvFiles.CleanupResolvConf | internal/gateway/gateway.go:1504-1517 | carries out the file operations of the clean-up, in order: the same, but without a backup only a file that is nothing but the line for 127.0.0.1 is replaced |
| ResolvConf.NeverLostIff | internal/gateway/gateway.go:1387-1426 | over every run of starts, stops and crashes between any two file operations, the original is at every moment in the live file or in the backup, exactly when no stop without a takeover gets to the live file (unless it writes the original itself) |
| ResolvConf.SurvivesIff | internal/gateway/gateway.go:1387-1426 | what is lost stays lost: at the end of a run an original other than the fallback text is still there exactly when no such stop happened |
| ResolvConf.PutBack | internal/gateway/gateway.go:1412-1426 | after every completed stop or clean-up of such a run, as long as nothing was lost, the live file is the original |
| ResolvConf.CycleRestoresIff | internal/gateway/gateway.go:1387-1426 | one start and stop gives the original back exactly when it is not empty and does not name 127.0.0.1 |
| ResolvConf.StopWithoutTakeOver | internal/gateway/gateway.go:1450-1470 | a stop without a takeover keeps the original only if it is the fallback text |
| ResolvConf.TakeOverWithoutCleanup | internal/gateway/gateway.go:1475-1518 | without the clean-up first, a takeover after a crash would overwrite the only copy |
| HostPins.HostsFile.Resolve | internal/gateway/gateway.go:1261-1300 | the first believable answer is taken, none only if there is none |
| HostPins.HostsFile.PinHost | internal/gateway/gateway.go:1261-1329 | the file changes exactly when an answer is believable, to the pinned text; for a host and an address that are single words the host then resolves to that address unless a line that stays has it, and other names resolve as the lines that stay say |
| HostPins.PinnedMeans | internal/gateway/gateway.go:1305-1328 | for every file: the last line but the empty one reads as that address for just that host; before it all lines stay, in order, but for pin lines that contain the host and an empty line after all others |
| HostPins.PinnedResolves | internal/gateway/gateway.go:1305-1328 | for every file and every name: the first line that has the name and stays answers for it; without one, the host has its new address and any other name none |
| HostPins.FirstPinStaysIff | internal/gateway/gateway.go:1311-1316 | of two pins the first is still there exactly when its line does not contain the name of the second host |
| HostPins.HostsFile.UnpinHosts | internal/gateway/gateway.go:1332-1346 | the loop gives the unpinned text |
| HostPins.UnpinnedMeans | internal/gateway/gateway.go:1332-1346 | for every file: exactly the lines without the marker stay, in order |
| HostPins.UnpinPinned | internal/gateway/gateway.go:1305-1346 | for every file: what one pin and unpinning come to, with the exact case in which a line break stays behind |
| HostPins.PinsComeOff | internal/gateway/gateway.go:1305-1346 | any sequence of pins comes off a file that ends in a line break and holds more than pins |
| HostPins.PinsComeOffIff | internal/gateway/gateway.go:1305-1346 | and exactly off those, for pins that have an address |
| HostPins.UnpinnedFileComesBack | internal/gateway/gateway.go:1305-1346 | a file without pins comes back byte for byte |
| HostPins.OnePinLine | internal/gateway/gateway.go:1305-1328 | right after a pin exactly one pin line mentions the host, the new one |
| Text.JoinSplit | internal/gateway/gateway.go:1305-1328 | joining the parts of a split gives the text back |
| Text.SplitJoin | internal/gateway/gateway.go:1332-1346 | splitting joined lines gives the lines back |
| Text.TrimSpaceMeans | internal/profile/profile.go:244-251 | trimming takes off all the white space at both ends of a text and nothing else |
| Routing.ParseKeepsValue | internal/tunnel/configgen.go:690-695 | each of the five kinds of matcher carries every value, colons included, and no other kind is understood |
| Routing.ParseWithoutColon | internal/tunnel/configgen.go:651-695 | of the texts without a colon only `default` is understood |
| Routing.MeansOne | internal/tunnel/configgen.go:619-687 | a rule list means one outbound for each flow |
| Routing.AgreementCarriesMeaning | internal/tunnel/configgen.go:1315-1394 | engines with the same knowledge read the same meaning |
| Routing.PickMeans | internal/tunnel/configgen.go:651-670 | picking the first rule that hits, else the last default, is the meaning |
| SingboxRoute.TagsDefinedOnce | internal/tunnel/configgen.go:655-686 | every rule set tag that a compiled rule uses is defined exactly once, by a file that exists |
| SingboxRoute.RouteMeansRules | internal/tunnel/configgen.go:619-720 | for every rule list and flow the compiled section picks the outbound the rules mean for the flow once sniffed and resolved through `dns-tunnel`: private, then local, then first hit, then last default, then proxy |
| SingboxRoute.DefaultsShadowNothing | internal/tunnel/configgen.go:651-655 | misplaced or repeated defaults compile to the same section as one at the end |
| XrayMeaning.RouteMeansRulesIff | internal/tunnel/configgen.go:1315-1394 | over all rule lists: the compiled xray section with its catch-all has the same meaning for every flow and every outside world exactly when the list is harmless: from the first reachable rule whose block xray reads as geo data on, all reachable rules go where the default goes |
| XrayMeaning.EnginesAgreeIff | internal/tunnel/configgen.go:1315-1394 | when both engines find the geo data of the same rules, they route every flow that carries an address alike, given the same data and private addresses, exactly when the list is harmless |
| XrayMeaning.HarmlessMeans | internal/tunnel/configgen.go:1315-1394 | a harmless list means the same in xray, whatever files are there |
| XrayMeaning.Counterexample | internal/tunnel/configgen.go:1368-1394 | for any other list, an outside world and a flow that xray treats otherwise than meant |
| XrayRoute.WhatXrayDoes | internal/tunnel/configgen.go:1315-1365 | for every list: private, then local, then the first rule that hits as xray reads it, then the last default |
| XrayRoute.CidrFaithfulIff | internal/tunnel/configgen.go:1368-1394 | an `ip_cidr` matcher is carried over faithfully exactly when its text does not begin with `geoip:`, `ext:` or `ext-ip:` |
| LegacyRoute.LegacyMeans | internal/tunnel/configgen.go:821-941 | without rules: forced domains go through the proxy whatever else holds, all else is direct exactly when local, bypassed, private or whitelisted |
| LegacyRoute.LegacyTagsDefined | internal/tunnel/configgen.go:873-938 | without rules every rule set tag in the route and DNS sections is defined |
| LegacyRoute.LegacyFilesExistIff | internal/tunnel/configgen.go:907-919 | the definitions name existing files exactly when every whitelisted country's file exists |
| LegacyRoute.LegacyThroughTunnelIff | internal/tunnel/configgen.go:414-580 | without rules a name is looked up through the tunnel exactly when there is gateway mode, a listed country or a local rule at all, no local server answers for it, it is not one of the names of the proxy server, and no geosite file of a listed country that is there has it |
| SplitDns.ThroughTunnelIff | internal/tunnel/configgen.go:441-580 | with rules a name is looked up through the tunnel exactly when no local server answers for it, it is not one of the names of the proxy server, and no rule that goes direct hits by the name |
| SplitDns.WhoAnswers | internal/tunnel/configgen.go:553-577 | the first local server that covers a name answers for it, under its number; without one it is the tunnel resolver or the direct one |
| SplitDns.ProxyDomainsMean | internal/tunnel/configgen.go:466-490 | the names of the proxy server are address, SNI and host of the link, without empty ones and addresses, each once |
| SplitDns.DirectDomainsAvoidTunnel | internal/tunnel/configgen.go:494-530 | a domain whose first rule sends it direct by name is not looked up through the tunnel |
| SplitDns.ServerNameAvoidsTunnel | internal/tunnel/configgen.go:466-490 | the proxy server's own name is not looked up through the tunnel, with every setting |
| SplitDns.NoCircleIff | internal/tunnel/configgen.go:441-580 | what a look-up needs (the outbound of a resolver, the names of its server and of the proxy server, and who answers for them) is found after at most three steps, exactly when there is a default resolver or the tunnel resolver's server, if given by name, is not itself looked up through the tunnel |
| SplitDns.ServersDefinedIff | internal/tunnel/configgen.go:441-580 | all DNS servers referred to are defined exactly when no local DNS rule is active |
| SplitDns.DnsTagsDefinedIff | internal/tunnel/configgen.go:494-551 | with rules all DNS rule set tags are defined exactly when the file of every direct geoip rule exists |
| ConfigGen.ConfigGenerator.RuleSetFor | internal/tunnel/configgen.go:724-756 | a matcher string gets a definition exactly when it is a geo matcher whose file exists |
| ConfigGen.ConfigGenerator.SingboxRuleFor | internal/tunnel/configgen.go:690-720 | the rule for a matcher string, none for unknown matchers and missing files |
| ConfigGen.ConfigGenerator.AppendRule | internal/tunnel/configgen.go:651-672 | one turn of the loop, with the set of tags seen kept equal to the tags defined |
| ConfigGen.ConfigGenerator.SingboxRouteFromRules | internal/tunnel/configgen.go:619-687 | the loops build the section whose meaning is proved in SingboxRoute |
| ConfigGen.ConfigGenerator.XrayRuleFor | internal/tunnel/configgen.go:1368-1394 | the xray rule for a matcher string |
| ConfigGen.ConfigGenerator.XrayRouteFromRules | internal/tunnel/configgen.go:1315-1365 | the loops build the section whose meaning is proved in XrayRoute, with the strategy IPIfNonMatch |
| ConfigGen.ConfigGenerator.GeositeRuleSets | internal/tunnel/configgen.go:601-615 | one definition for each geosite country whose file exists |
| ConfigGen.ConfigGenerator.RouteSection | internal/tunnel/configgen.go:821-941 | the loops build the section whose meaning is proved in LegacyRoute, or the one from rules; its resolver for names that are dialled is `dns-direct`, and the interface is detected exactly in gateway mode |
| ConfigGen.ConfigGenerator.ProxyNames | internal/tunnel/configgen.go:468-482 | the link's names, each once, without bare addresses |
| ConfigGen.ConfigGenerator.TunnelDnsServer | internal/tunnel/configgen.go:64-75 | the server of the tunnel resolver is the first upstream that is not Cloudflare's, the last one when all are, and the built-in one when there is none |
| ConfigGen.ConfigGenerator.LocalServersAndRules | internal/tunnel/configgen.go:553-577 | each active local rule gets a server of its tag in the longer list, the list passed in is only its beginning |
| ConfigGen.ConfigGenerator.SingboxDns | internal/tunnel/configgen.go:414-586 | the section whose look-ups are proved in SplitDns, with the server list as it was before local servers were appended; only the direct resolver exactly when there is no gateway mode, country, rule or local rule |
| ConfigGen.ConfigGenerator.GenerateSingBox | internal/tunnel/configgen.go:949-981 | geosite countries default to the whitelist in gateway mode, for both sections, and stay so; sections are there exactly when something needs routing; which inbounds there are and on which ports |
| Closure.ConfigClosedIff | internal/tunnel/configgen.go:949-1065 | a whole configuration refers only to rule sets, servers and outbounds it defines exactly when no local DNS rule is active, direct geoip files exist, and compiled rules and the last default name known outbounds |
| Closure.GeneratedHasNoCircle | internal/tunnel/configgen.go:921-981 | a generated configuration always names a default resolver, so its look-ups never go round in a circle |
| Outbounds.ExtractedPortOfLoopback | internal/tunnel/configgen.go:1667-1681 | the port read back from a printed address is the port printed |
| Outbounds.ExtractedPortOf | internal/tunnel/configgen.go:1667-1681 | so is the port after the last colon of anything |
| Outbounds.DigitsSkip | internal/tunnel/configgen.go:1672-1677 | characters that are no digits make no difference to the port read |
| Outbounds.ExtractPort | internal/tunnel/configgen.go:1667-1681 | the nested loops give the digits after the last colon, or 0 |
| Outbounds.BodyMeans | internal/tunnel/configgen.go:199-395 | for each protocol, the server, port and flow that an outbound gets; a pinned address takes the place of a name |
| Outbounds.ProxyOutboundsMean | internal/tunnel/configgen.go:1037-1065 | a link connects by itself, or through the local proxy that it has for an upstream |
| Outbounds.HopTagInjective | internal/tunnel/configgen.go:169-177 | a tag gives away chain and position, whatever the chain is called |
| Outbounds.BuildChainOutbounds | internal/tunnel/configgen.go:163-193 | outbound i has kind, server and port of body i; the first one has its flow and no detour, every other one goes through the outbound before it and has no flow; the direct one is last |
| Outbounds.GenerateChainConfig | internal/tunnel/configgen.go:103-155 | an error exactly for no links, else these outbounds, one inbound on port 10800, and the last hop as the final outbound |
| Outbounds.TagsDistinct | internal/tunnel/configgen.go:163-193 | all outbound tags of a chain are distinct |
| Outbounds.ChainWalksDown | internal/tunnel/configgen.go:103-193 | from the final outbound the only walk along detours visits the hops from the last to the first, each once, and ends there |
| HopPath.HopPorts | internal/tunnel/configgen.go:1016-1065 | which port a hop listens on and which it dials, by engine and position |
| HopPath.EngineForMeans | internal/tunnel/tunnel.go:282-294 | ssh links run ssh, else an engine that is forced, else wireguard-go, openvpn or sing-box by protocol |
| HopPath.ConnectionPassesAllIff | internal/tunnel/chain.go:56-100 | a chain by itself, each process with its own config: every connection to the last hop's port passes all hops in descending order and leaves at the first, in no other way, exactly when later hops run sing-box, the first has a port, and no leftover upstream leads back |
| HopPath.LeftoverUpstream | internal/tunnel/chain.go:70-78 | a former hop as first hop is harmless only in a chain too short to contain its old upstream port |
| Carrying.CarriesIff | internal/tunnel/chain.go:56-100 | the same for a chain just started among other processes, over all moments at which processes read their configs and all orders in which they get to their ports: exactly when, besides, no two hops have the same config file and no other process holds, or may still get, a port of the chain or the one that the first hop dials, or has still to read a file that a hop writes |
| Carrying.ShortChainsOnly | internal/tunnel/configgen.go:1640-1652 | that leaves only chains of one hop and chains of an xray or ssh hop and a sing-box hop |
| Carrying.SourceForMeans | internal/tunnel/configgen.go:1592-1652 | all links of sing-box, and all of xray, have the same config file; those of the others have one for each sanitized remark; ssh has none |
| Carrying.SanitizedMeans | internal/tunnel/configgen.go:1654-1665 | exactly the letters, digits, hyphens and underscores stay, in order, and `unnamed` when there are none |
| Carrying.ChainFileApart | internal/tunnel/configgen.go:154 | chains in one process have different files exactly when their sanitized names differ, and never one that all links of an engine share |
| Carrying.OneChainAtATime | internal/tunnel/chain.go:76 | a process that listens on the first port, as the first hop of another chain or a chain in one process does, keeps every chain of processes from working |
| Carrying.SingleCarriesIff | internal/tunnel/configgen.go:103-155 | a chain in one process gets its connections exactly when no other process has or may get the first port or has still to read the same file |
| Chains.Process.Stop | internal/engine/process.go:118-128 | a process that still runs is told to stop, and then the log of stops holds it |
| Chains.HopNameInjective | internal/tunnel/chain.go:68 | hop names give away chain and position |
| Chains.Manager.StartTunnel | internal/tunnel/tunnel.go:67-243 | success writes the config to the engine's file and enters one running tunnel with a fresh process that has still to read that file; failure changes no entry, may have written the file, and starts at most one process, which has ended; a name whose tunnel counts as running is refused |
| Chains.Manager.StopTunnel | internal/tunnel/tunnel.go:246-264 | an existing tunnel's process has ended or is told to, and its status says stopped |
| Chains.Manager.StopHops | internal/tunnel/chain.go:206-215 | by the log, hops were told to stop from the last to the first and nothing else was; those not told had exited; a hop that had exited before keeps its status |
| Chains.ToldDownMeans | internal/tunnel/chain.go:206-215 | that log is the one before, and then the processes of those told, each once, in descending order |
| Chains.Manager.StartHop | internal/tunnel/chain.go:58-100 | each hop gets its own port and the previous hop's address; the first keeps what its link had |
| Chains.Manager.StartMulti | internal/tunnel/chain.go:33-107 | success registers the chain with every hop wired to its place; failure registers nothing, leaves no process of this call running, and by the log told the process of the failed hop, if it had one, and then the earlier hops to stop, from the last to the first |
| Chains.Manager.HopsFitMean | internal/tunnel/chain.go:56-100 | wired to its place means: hop k has the link asked for, listens on port 10800 + k if its engine listens at all, and dials the port before, the first one what its link was left with |
| Chains.Manager.StartSingle | internal/tunnel/chain.go:111-187 | one process carrying the chain, with a config file of its own, whose outbounds go, hop by hop, where a link of the configured name says, each through the one before and only the first with its flow, or a registered failure with nothing started; a running chain is refused and untouched |
| Chains.Manager.ResolveStrategy | internal/tunnel/chain.go:231-252 | one process only if every hop allows it, several only if some hop may not |
| Chains.Manager.StartChain | internal/tunnel/chain.go:33-187 | either way a failure leaves nothing of this call running; other chains, and all tunnel entries that are not hops of this chain, are as before |
| Chains.Manager.StartedCarriesIff | internal/tunnel/chain.go:33-187 | a started chain of either kind carries connections exactly under the conditions above |
| Chains.Manager.StartAmong | internal/tunnel/chain.go:33-187 | starting a chain while other processes run or have still to read their configs, and the same equivalence for what was started |
| Chains.Manager.StopChain | internal/tunnel/chain.go:190-203 | every hop's process has ended or was told to, by the log from the last to the first; hops that had exited before keep their status |
| Chains.RegisteredAt | internal/tunnel/chain.go:97-99 | each hop is found in the tunnel table under its own name |
| Chains.OtherChainsUntouched | internal/tunnel/chain.go:58-106 | so entries of hops of other chains stay after a start, whatever the chains are called |
| Groups.MirrorsSave | internal/profile/profile.go:310-317 | saving one group keeps files and groups equal |
| Groups.MirrorsDelete | internal/profile/profile.go:202-212 | so does deleting one with its file |
| Groups.MirrorsMean | internal/profile/profile.go:310-317 | equal means: the file `<name>.json` is there exactly for the groups, with name, kind, subscriptions and links in order, each with the name of its group |
| Groups.ActiveLinkIsFoundIff | internal/profile/profile.go:215-256 | for all names and remarks: what is written for a link leads back to the first link of its group with the same trimmed remark exactly when the group name is one line without outer white space and the remark has nothing after its first line |
| Groups.LookupMeans | internal/profile/profile.go:226-256 | what an `.active` file leads to: the group of its first line and there the first link with the remark of its second line, without outer white space |
| Groups.RenameKeepsActiveIff | internal/tui/tui.go:1641-1650 | for a file that can be followed: renaming keeps which link it leads to exactly when another group is named, or the old name and the remark are not blank and the new name is one line without outer white space; otherwise it leads to no link of the renamed group |
| Groups.RenameLoads | internal/tui/tui.go:1615-1639 | after renaming the files load as the same groups under the new name |
| Groups.RenamedStoreMeans | internal/tui/tui.go:1615-1639 | the group has all that it held, under the new name only, and the others are as before |
| Effects.ApplyHasEffect | internal/profile/profile.go:126-212 | for every operation on any groups: whether it is refused, and if not what becomes of the named group element by element (an appended link, a removed one with all later ones moved down, links gathered from the answers in order), with all other groups as before |
| Effects.ApplyAllInTurn | internal/profile/profile.go:126-212 | a sequence of operations takes effect from the first to the last |
| Profiles.Manager.LoadAll | internal/profile/profile.go:259-296 | every group comes from a group file and every group file gives a group; links are new and carry their group's name |
| Profiles.Manager.LoadedIs | internal/profile/profile.go:259-296 | files that mirror groups load as exactly these groups |
| Profiles.Manager.AddLink | internal/profile/profile.go:126-141 | the link is appended behind those of the group, which is created with the kind "basic" if missing; files mirror the groups, and all groups own their links exactly when the link is in no other group |
| Profiles.Manager.RemoveLink | internal/profile/profile.go:144-161 | the first link with the remark goes, those before it stay, each later one moves down by one place; kind, subscriptions and all other groups are as before; refused if there is none |
| Profiles.Manager.CreateGroup | internal/profile/profile.go:188-199 | a new empty group, refused if the name exists |
| Profiles.Manager.DeleteGroup | internal/profile/profile.go:202-212 | group and file go together |
| Profiles.Manager.AddSubscription | internal/profile/subscription.go:174-192 | appended and saved, refused if already there |
| Profiles.Manager.RemoveSubscription | internal/profile/subscription.go:195-210 | the subscription at the index goes and later ones move down, refused out of range; nothing else changes |
| Profiles.Manager.UpdateSubscriptions | internal/profile/subscription.go:131-171 | the links become those of all fetches that did not fail, answer after answer; nothing changes when nothing was fetched |
| Profiles.Manager.SaveGroup | internal/profile/profile.go:299-307 | saving a group that is mirrored already changes nothing |
| Profiles.Manager.GetLink | internal/profile/profile.go:100-123 | the active group's first link with the remark if it has one, else some group's, none only if no group has one |
| Profiles.Manager.SetActiveLink | internal/profile/profile.go:215-223 | remembered, and group and remark are written in two lines; group files untouched |
| Profiles.Manager.GetActiveLink | internal/profile/profile.go:226-256 | the remembered link, else the one the file leads to |
| Profiles.Manager.PerformAll | internal/profile/profile.go:126-212 | over every sequence of operations files and groups stay equal and links carry their group's name |
| Profiles.Reopen | internal/profile/profile.go:81-97 | from an empty directory, after any operations, a new manager has the same groups |
| Profiles.RenameGroup | internal/tui/tui.go:1615-1653 | refused without changes if the old file is missing or unreadable or the new one exists, else the renamed files, with no file changed but these two and `.active` |
| Profiles.SetAndRestart | internal/profile/profile.go:215-256 | set active, restart: all groups are there, and the same link is returned exactly when what was written can be followed |
| Profiles.RenameAndRestart | internal/tui/tui.go:1615-1653 | set active, rename, restart: all groups and links are there under the new name, and the same link is returned exactly under the condition above |
| LocalDns.StringTestIsLabelTest | internal/gateway/gateway.go:999-1001 | for all strings the test on string ends is the comparison of labels |
| LocalDns.Forwarder.ServerFor | internal/gateway/gateway.go:991-1009 | the nested loops find the first entry with a matching suffix |
| LocalDns.Dispatch | internal/gateway/gateway.go:975-1009 | a query goes to the first configured entry with a server and a suffix whose labels end the lower-cased name without the dot at its end, else upstream |
| Socks.DecodeMessage | internal/gateway/gateway.go:1098-1102 | a message followed by anything decodes to its address, its port modulo 65536, and what follows |
| Socks.RequestRoundTripIff | internal/dns/socksproxy.go:158-182 | a request decodes to the same address and port exactly for names up to 255 bytes and ports from 0 to 65535 |
| Socks.Socks5Connect | internal/gateway/gateway.go:1076-1125 | which bytes are written and what is left to read; unless a write fails, success exactly when method and reply are both zero |
| Socks.OneReplyConsumed | internal/gateway/gateway.go:1105-1123 | for every well-formed reply of each address type exactly that reply is consumed, and success means no authentication and a grant |
| Socks.FramingRoundTripIff | internal/dns/socksproxy.go:195-200 | the length prefix round-trips exactly for queries shorter than 65536 bytes |
| Socks.FrameQuery | internal/dns/socksproxy.go:195-200 | the buffer filled in place is the framed query |
| Socks.ForwardViaSocks | internal/dns/socksproxy.go:121-222 | what is written for each form of upstream; unless a write fails, the answer is a function of what the proxy sends |
| Socks.ForwardedMeans | internal/dns/socksproxy.go:136-222 | which bytes from the proxy give which answer: a greeting and ten bytes of reply with their fixed values, a length of at most 4096, and then the answer |
| Socks.TenBytesIff | internal/dns/socksproxy.go:184-190 | the ten bytes read are the whole reply, for every payload, exactly for IPv4 and for names of three bytes |
| Socks.AnswerComesBackIff | internal/dns/socksproxy.go:202-221 | after an IPv4 reply the answer comes back exactly when it is at most 4096 bytes |

## Left out

- Processes, sockets, curl checks, iptables and ip commands, sleeps and timeouts are free choices of the model's world.
- The lock that is released while a hop starts: chain and tunnel operations run one after the other here, so interleavings of two of them are not covered.
- `Start` after `Stop`, and cancelling the context: the run of `Gateway.Session` starts, retries and stops once.
- The DNS server, tun2socks and routing steps of `Start` and `Stop` (`startDNS`, `startTun`, `setupRouting`): only the engine is followed.
- Chains that the gateway starts automatically (`startAutoChains`).
- That the wait for an ssh hop's port gives the hops before it some time to read their configs: it is no wait for them, so `Carrying.CarriesIff` takes them to read at any later moment.
- A hop that exits after it was up, and programs that come to a port between two looks at it: `Carrying.CarriesIff` speaks of the processes there at the start and of the hops.
- A config file that is cut off because writing it failed: a failed write leaves the file as it was here.
- An engine that exits by itself while the gateway runs; processes of chain hops may do so at any time they are looked at.
- `Gateway.Gateway.Reload`: the whole configuration is a value here, while the program copies some fields into an object that other parts share; what the next start does with it is said by `Gateway.Gateway.Start`.
- What sing-box and xray do inside beyond first match, sniff and resolve, in particular xray's second pass after resolving: agreement is stated for flows that carry an address.
- The legacy xray section: it orders its rules differently from the legacy sing-box section, so no agreement holds there.
- A geo data text that xray refuses to load, and what it then does: every text is taken as readable here.
- The name servers of external outbounds and of chain hops: `SplitDns.NoCircleIff` follows the proxy outbound only.
- JSON, YAML, URL and base64 libraries: configurations and group files are values, and external outbounds are the list of their tags.
- Outbound fields other than server, port, flow, tag and detour; the flow field of a link is the only one that the chain changes.
- `Chains.Manager.StartTunnel`: log files, firejail options and the ssh command line are not modelled; that they cannot be prepared is one of the free failures.
- Profile groups are values in the manager's map, so a change made through an object handed out by `GetGroup` is not seen; links are objects.
- Writes to the profile directory succeed, and group names hold no path separator.
- Fields of a link that are not stored, apart from the chain fields: the CDN mark is recomputed on load.
- Fetching and parsing of subscriptions: the answers are inputs.
- Resolvers that gather all addresses of a name from the hosts file: in `HostNames.AddressOf` the first line that has the name decides.
- Lower-casing of names in the DNS forwarder is a parameter.
- The upstream path of the DNS forwarder (DNS over HTTPS, then UDP) and what it answers when a local server is unreachable.
- Splitting "host:port" and telling addresses from names (`net.SplitHostPort`, `net.ParseIP`) in the SOCKS code: host, port and form are inputs.
- `GetStatus` and `GetChainStatus`, which correct the status of exited processes when someone asks.
- The TUI other than `renameGroup`, the command line, the REST API, metrics, updater, downloads and path detection.
- `internal/pidfile`: creating and removing are separate steps, so exclusion under interleaving does not follow.
