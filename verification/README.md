# Verified models of the hard parts of the RetroShare tree

This project models five pieces of the repository in Dafny and proves what they
are for.

* **The BitDHT connection manager** (`Connect*.dfy`): the handshake by which two
  nodes agree, through a proxy or directly, to open a connection at about the same
  time. `ConnectNode` says what one node does with each input: the user's
  requests and answers, clock ticks, REQUEST, REPLY, START and ACK messages, and
  the reports it hands back to itself. `ConnectManager` is the object
  with its two tables, each method proved to do what `ConnectNode` says.
  `ConnectSteps`, `ConnectInvariant`, `ConnectRuns`, `ConnectRequests`,
  `ConnectAttempts`, `ConnectBudget`, `ConnectTight`, `ConnectSends` and
  `ConnectTrace` are about the runs of one node; `ConnectNetwork`,
  `ConnectTheorems`, `ConnectDeadlines`, `ConnectAddresses` and `ConnectRefusals`
  are about a network of such nodes whose messages are lost, repeated and reordered
  at will, and `ConnectHandshake` about one in which they arrive. `ConnectLaws`,
  `ConnectTicks` and `ConnectCandidates` say field by field and message by message
  what each input makes a node do.
* **The runtime of the generated markdown parser** (`Peg*.dfy`): `Peg` is the
  meaning of parsing expression grammars over a whole text, `PegReader` what comes
  of reading that text byte by byte, and `PegMatcher` the runtime with its lazily
  filled buffer, its backtracking and its log of deferred actions, proved to do
  what `PegReader` says for every grammar and every input. `PegMarkdown` and
  `PegSource` are about the rule that finds the end of a link's source, `PegLines`
  about the rules that cut a text into lines, `PegNotes` about a rule in which
  actions run.
* **The link ranking service** (`Ranking*.dfy`): the store, the index by rank, and
  the two published streams.
* **The message history** (`BdHistory.dfy`): per-peer lists and the timeline that
  serves as the index for cleaning them. `BdTable.dfy` is about the search trees
  that hold them, and `BdPeer.dfy` about the orders of keys.
* **The value store** (`BdHash.dfy`): a multimap whose changes depend on secrets
  and lifetimes.

`dafny verify dfyconfig.toml` checks all of it.

## Reading the connection theorems

A *well-formed* request (`ConnectSteps.WellFormed`) is the first leg to a proxy,
the second leg to the destination, or a direct request. *Legal* runs of a node
(`ConnectRuns.Legal`) have non-decreasing times, well-formed requests, and user
answers that echo the mode and point they were asked about; replies, starts and
acks may come from anybody and say anything. In a network (`ConnectNetwork.NetRun`)
nothing is assumed about requests: that they are well-formed is part of what is
proved, because every node that sends one runs the same code.

## What the proofs found

* A request that was given n proxies makes at most 3n + 1 connection attempts:
  recycling stops after 3n failures that were recycled
  (`ConnectBudget.AttemptsAreBounded`), and the bound is attained for every n
  (`ConnectTight.BoundIsAttained`).
* The key of a record is made from the receiver's position and the record from
  the sender's, and the code never compares the two;
  `ConnectInvariant.RequestAgreesIff` is the exact condition for them to agree.
* `TEMPUNAVAIL` from a source other than the end falls through to the fatal
  branch, as `ConnectCodes.Judge` follows the code there
  (`libbitdht/src/bitdht/bdconnection.cc:1299-1318`).
* The order on peers with addresses (`libbitdht/src/bitdht/bdpeer.cc:130-147`)
  compares the ports of two addresses of one node even when the IP numbers already
  decide, so it is not an order; `BdPeer.PeerOrderIsNotAsymmetric` gives two peers
  each below the other, and `BdPeer.PeerOrderIsTotalIff` says of which sets of
  peers it is one. The message history is kept in a map with that order: cleaning
  it is right in all runs over a set of peers exactly if no two are crossed
  (`BdHistory.CleanupIsSoundIff`), and `BdHistory.RedBlackTreeMisses` is a run in
  which an expired message stays.
* The parser reads a plain `char`, and the byte 0xff is the end of the input to
  it, after which it reads on. `PegReader.Read` says what it does on every input,
  and `PegReader.ReadsWholeTextIff` when that is what the grammar means.
* The service ignores a comment that differs from the stored one only in its
  score (`RankingStreams.WithMsgComments`), and our first comment on a link that
  others commented on takes it out of the friends' file without asking for that
  file to be published again (`RankingStreams.FriendsFileIsRepublishedIff`,
  `RankingStreams.TakeOverIsMissed`). The own file has no such gap
  (`RankingStreams.OwnFileIsUpToDate`).

## Model

| member | source | states |
|---|---|---|
| ConnectHandshake.HandshakeCompletes | libbitdht/src/bitdht/bdconnection.cc:2083-2668 | every network run that gets to a state in which a source can try a proxy goes on, with one REQUEST, OKAY, round of START and pair of acks at any timely moments, to one in which both ends are completed between the same two addresses, the source's request waits for the connection and the proxy has finished, whatever else is in their tables |
| ConnectAddresses.AddressesAreNamed | libbitdht/src/bitdht/bdconnection.cc:2953-3060 | in every network run an end of a proxied connection completes, and its user is told to connect, between the source address of the REQUEST and the address the destination's user named, each replaced by what the proxy knew if it is blank |
| ConnectAddresses.EndsAgree | libbitdht/src/bitdht/bdconnection.cc:1748-1800 | two ends completed by STARTs of one record of the proxy, of whichever rounds, have the same two addresses |
| ConnectTheorems.AuthorisationPrecedesCompletion | libbitdht/src/bitdht/bdconnection.cc:2379-2406 | in every network run, a COMPLETED end of a proxied connection implies an earlier OKAY taken by the proxy, before which both the proxy and the destination authorised this tuple |
| ConnectTheorems.OkayIsDoublyAuthorised | libbitdht/src/bitdht/bdconnection.cc:1571-1617 | the proxy acts on any reply for the tuple, yet whenever it takes an OKAY it had authorised the attempt and so had the destination |
| ConnectTheorems.FinishMeansBothCompleted | libbitdht/src/bitdht/bdconnection.cc:2575-2668 | when an ack makes the proxy drop a record as finished, both ends have been COMPLETED for that tuple |
| ConnectTheorems.ThirdPartyAckIsIgnored | libbitdht/src/bitdht/bdconnection.cc:2603-2626 | an ack from neither end changes no record, request, message or callback |
| ConnectDeadlines.DeadlinesOnlyMoveOut | libbitdht/src/bitdht/bdconnection.cc:2953-3028 | in PROXY mode an end completes with a deadline no earlier than its own was, nor than that of the proxy's record in the very state in which it sent the delivered START; and that deadline is no earlier than what the source asked for in the REQUEST that made this record and the destination in the OKAY it took |
| ConnectDeadlines.RequestOf | libbitdht/src/bitdht/bdconnection.cc:2772-2804 | a proxy's record was made by one REQUEST of the source, has lived on since, and is never due before what that asked for |
| ConnectDeadlines.OkayOf | libbitdht/src/bitdht/bdconnection.cc:2953-3010 | a proxy's record that waits for acks took one OKAY of the destination and is never due before what that asked for |
| ConnectLaws.OkayAtProxy | libbitdht/src/bitdht/bdconnection.cc:2379-2406 | an OKAY for a record that waits for it leaves it waiting for both acks, between the address the OKAY names and the one of the REQUEST, each or the one the proxy knows, due no earlier than both asked for, and reports it as pending |
| ConnectLaws.StartAtEnd | libbitdht/src/bitdht/bdconnection.cc:2496-2564 | a START completes the waiting end between the addresses it names, is acked to its sender, hands the addresses to the user, and makes the request wait for the connection |
| ConnectLaws.AckOfAnEnd | libbitdht/src/bitdht/bdconnection.cc:2608-2668 | an end's ack sets its flag; with both the record goes, and the proxy's user, or the end of a direct connection, is told |
| ConnectLaws.GrantAtProxy | libbitdht/src/bitdht/bdconnection.cc:1590-1617 | the user's yes at the proxy sends the REQUEST on to the destination with the source's address |
| ConnectLaws.GrantAtDestination | libbitdht/src/bitdht/bdconnection.cc:1571-1589 | the user's yes at the destination sends the proxy an OKAY with the address and delay the user named |
| ConnectLaws.DenyIsSent | libbitdht/src/bitdht/bdconnection.cc:1633-1690 | the user's no drops the record and tells the party that asked, with a type that is never empty and the point that refused |
| ConnectLaws.RequestRefused | libbitdht/src/bitdht/bdconnection.cc:2092-2147 | a request that meets an objection is answered with the first one, and nothing is stored |
| ConnectLaws.RequestTaken | libbitdht/src/bitdht/bdconnection.cc:2149-2294 | a request without objection makes one record with what it says and what the node knows, and asks the user |
| ConnectLaws.RequestPassedOn | libbitdht/src/bitdht/bdconnection.cc:2196-2262 | a proxy that authorises by itself sends such a request on at once, without asking |
| ConnectLaws.FailureAtSource | libbitdht/src/bitdht/bdconnection.cc:1179-1412 | which errors end a request, which let the same proxy be tried again, and which count it as tried, with code, pause and lists after each |
| ConnectNetwork.SentByMove | libbitdht/src/bitdht/bdconnection.cc:1438-1806 | every message in the network was sent by one move of the node it names, and the sender's table right after that move justifies it |
| ConnectTheorems.CompletedIsFinal | libbitdht/src/bitdht/bdconnection.cc:2468-2529 | a completed record is never changed by any input, only dropped |
| ConnectRefusals.EndRefusalsComeFromTheEnd | libbitdht/src/bitdht/bdconnection.cc:2333-2362 | in every network run a refusal that names the END was sent by the destination, with that very code and for a reason; from another node it comes only because the destination sent it to that node, which passed it on, once, to the source |
| ConnectRefusals.EndRefusalIsCaused | libbitdht/src/bitdht/bdconnection.cc:2092-2147 | the destination refuses with source END only because its user said no, or it does not do the mode, or it has such a record or an opposite one, with the type that says so |
| ConnectRefusals.NetLinked | libbitdht/src/bitdht/bdconnection.cc:758-1033 | in every network run without user cancellation each START_POINT record of each node is the current attempt of a live request |
| ConnectRefusals.RefusalAtTheEnd | libbitdht/src/bitdht/bdconnection.cc:1654-1684 | a refusing destination drops its record and sends the proxy one code with source END and a type that is never empty |
| ConnectRefusals.RefusalAtTheProxy | libbitdht/src/bitdht/bdconnection.cc:2420-2440 | the proxy drops its record and passes the code on to the source unchanged |
| ConnectRefusals.RefusalAtTheSource | libbitdht/src/bitdht/bdconnection.cc:1179-1394 | the source records the code, and the request is DONE exactly for AUTH_DENIED, UNSUPPORTED, TEMPUNAVAIL, DUPLICATE, and UNREACHABLE in PROXY mode |
| ConnectRefusals.RefusalReachesTheSource | libbitdht/src/bitdht/bdconnection.cc:2306-2450 | in every network run without user cancellation: when a refusal that names the END reaches the source, its record goes, its request has that code and is DONE exactly for AUTH_DENIED, UNSUPPORTED, TEMPUNAVAIL, DUPLICATE, and UNREACHABLE in PROXY mode, and the destination had sent that code, for a reason, to this proxy, which passed it on, or directly in DIRECT mode |
| ConnectNetwork.NetRunOk | libbitdht/src/bitdht/bdconnection.cc:2083-2668 | an invariant over nodes and all messages ever sent, kept by every move of every network run: each message and record is backed by earlier states of the other parties |
| ConnectBudget.AttemptsAreBounded | libbitdht/src/bitdht/bdconnection.cc:813-1007 | a request given n proxies in all announces at most 3n + 1 attempts in any run without user cancellation |
| ConnectTight.BoundIsAttained | libbitdht/src/bitdht/bdconnection.cc:1321-1367 | for every n > 0 there is such a run with n proxies that makes 3n + 1 attempts: all of them overloaded relays |
| ConnectBudget.RunBudget | libbitdht/src/bitdht/bdconnection.cc:1321-1391 | the accounting behind the bound: attempts made plus proxies left never exceed proxies given plus proxies recycled |
| ConnectAttempts.FailuresCovered | libbitdht/src/bitdht/bdconnection.cc:1369-1412 | failures reported for a target, plus the attempt under way, are at most the attempts announced: no attempt fails twice |
| ConnectAttempts.StepCounts | libbitdht/src/bitdht/bdconnection.cc:767-948 | each step pays for a failure with an attempt that is then over |
| ConnectRequests.RunLinked | libbitdht/src/bitdht/bdconnection.cc:758-1033 | in every run without user cancellation each START_POINT record has a live request for its target whose current attempt is that record |
| ConnectRequests.TickLinked | libbitdht/src/bitdht/bdconnection.h:45-59 | a tick restores that: a request gives an attempt up after 30 or 300 seconds and the record, stale after 20, goes in the same tick |
| ConnectRequests.OneAttemptAtATime | libbitdht/src/bitdht/bdconnection.cc:952-1033 | a target never has two START_POINT records at once |
| ConnectInvariant.StepOk | libbitdht/src/bitdht/bdconnection.cc:1932-2066 | any input keeps every key equal to the ids of its record and its two connect addresses, and every record in a state of its role |
| ConnectInvariant.RequestAgreesIff | libbitdht/src/bitdht/bdconnection.cc:2045-2241 | the record made for a request agrees with its key if and only if sender and receiver see the same three parties |
| ConnectInvariant.StepNoOpposites | libbitdht/src/bitdht/bdconnection.cc:1455-1491 | no step, whoever initiates it, leaves two records between the same nodes in opposite directions |
| ConnectSteps.StepCame | libbitdht/src/bitdht/bdconnection.cc:2679-3028 | after any step every record was there unchanged, or was installed by one of six transitions, or advanced by one of seven, with the fields those transitions set |
| ConnectRuns.RunOk | libbitdht/src/bitdht/bdconnection.cc:1918-2066 | in every reachable state keys and records agree, states fit roles, and there is no opposite pair |
| ConnectRuns.IdsResolve | libbitdht/src/bitdht/bdconnection.cc:1995-2043 | the ids of an AUTH callback find the record they came from, and so does a message of each of the three parties about the attempt |
| ConnectRuns.StampMeansProgress | libbitdht/src/bitdht/bdconnection.cc:2837-3019 | a record's time stamp changes only with its stage, of which there are at most three; duplicates never refresh it |
| ConnectRuns.LifeIsBounded | libbitdht/src/bitdht/bdconnection.cc:1703-1746 | with ticks at most gap seconds apart a record never outlives twenty seconds plus gap per stage |
| ConnectSends.StepSends | libbitdht/src/bitdht/bdconnection.cc:1438-1806 | every message a step sends is one that the record or the message it answers justifies |
| ConnectSends.OnlyTicksSendStarts | libbitdht/src/bitdht/bdconnection.cc:1748-1800 | START goes out on clock ticks only |
| ConnectTrace.ProxyStories | libbitdht/src/bitdht/bdconnection.cc:1724-1746 | what the user is told of a proxy's record is a prefix of AUTH FAILED, AUTH PENDING FAILED or AUTH PENDING PROXY, and its length fits the state |
| ConnectTrace.StoriesArePrefixes | libbitdht/src/bitdht/bdconnection.cc:2628-2665 | the stories that state machine allows are exactly the prefixes of those three |
| ConnectTrace.RoundsAreBounded | libbitdht/src/bitdht/bdconnection.cc:1748-1800 | a record sends at most four rounds of START in any run |
| ConnectTrace.StartCountsAsRetry | libbitdht/src/bitdht/bdconnection.cc:1748-1776 | whenever START goes out for a record the tick counted it as a retry |
| ConnectTicks.TickSendsRounds | libbitdht/src/bitdht/bdconnection.cc:1748-1800 | for each record that waits for acks, the STARTs between its ends that a tick sends are exactly those due: one to the source if and only if it has not acked, one to the destination if and only if it has not, with both addresses, the mode, and the delay left or the bandwidth |
| ConnectTicks.TickedRecord | libbitdht/src/bitdht/bdconnection.cc:1714-1776 | a tick drops exactly the records older than twenty seconds and those whose four rounds are over, and counts a round for those that send one |
| ConnectTicks.GivingUpIsReported | libbitdht/src/bitdht/bdconnection.cc:1724-1746 | a record given up after its rounds is reported as timed out, unless the proxy acts by itself |
| ConnectTicks.AttemptStarts | libbitdht/src/bitdht/bdconnection.cc:952-1033 | a ready request with nothing in the way announces an attempt through its first proxy, stores its record, and sends the REQUEST with its own address and the delay that is left |
| ConnectTicks.AttemptFails | libbitdht/src/bitdht/bdconnection.cc:952-1050 | a ready request without a usable first proxy is done, as out of proxies |
| ConnectTicks.RequestWaits | libbitdht/src/bitdht/bdconnection.cc:786-930 | when a pause ends and in what, how long an attempt and a connection are waited for, and that what is done is reported and forgotten |
| ConnectCodes.ErrorCode | libbitdht/src/bitdht/bdconnection.cc:3341-3368 | the code has the caller's type or else the fallback, names its source by the point, and is never of empty type |
| ConnectManager.Manager.constructor | libbitdht/src/bitdht/bdconnection.cc:61-92 | a new manager is the fresh node of the theorems |
| ConnectManager.Manager.SetConnectionOptions | libbitdht/src/bitdht/bdconnection.cc:81-92 | sets the allowed modes and the automatic proxy flag and nothing else |
| ConnectManager.Manager.ShutdownConnections | libbitdht/src/bitdht/bdconnection.cc:100-112 | empties both tables |
| ConnectManager.Manager.RequestConnection | libbitdht/src/bitdht/bdconnection.cc:159-206 | a new request unless one exists, as a step of the node |
| ConnectManager.Manager.KillConnectionRequest | libbitdht/src/bitdht/bdconnection.cc:224-280 | cancels the request for a target, as a step of the node |
| ConnectManager.Manager.RequestDirect | libbitdht/src/bitdht/bdconnection.cc:282-361 | the request it stores has the query results as its candidates, as they are, and if there are none each match of the node space once |
| ConnectManager.Manager.RequestProxied | libbitdht/src/bitdht/bdconnection.cc:363-637 | the request it stores sorts the candidates into good proxies and potential ones as the mode demands |
| ConnectCandidates.ProxiedRequestHas | libbitdht/src/bitdht/bdconnection.cc:401-637 | a proxied request has all candidates of each source in their order, proxies on the way to the target first in PROXY mode and last in RELAY mode, relay servers before friends, and waits for more with fewer than three |
| ConnectCandidates.DirectRequestHas | libbitdht/src/bitdht/bdconnection.cc:300-350 | a direct request has the query's results as they are, and if there are none exactly each match once |
| ConnectCandidates.AskMakesRequest | libbitdht/src/bitdht/bdconnection.cc:159-206 | when a request is made, and what is in it |
| ConnectCandidates.OfferedPeer | libbitdht/src/bitdht/bdconnection.cc:639-714 | an offered peer becomes a candidate exactly if it has the flag, is not the target and is new to a proxied request |
| ConnectCandidates.AnsweredPeer | libbitdht/src/bitdht/bdconnection.cc:3137-3234 | a peer that answered stops being a potential candidate where it is one, and is a candidate there if it is new |
| ConnectManager.Manager.AddPotentialConnectionProxy | libbitdht/src/bitdht/bdconnection.cc:639-714 | a flagged peer offered for a proxied request becomes a good proxy of it, unless the request knows it already or it is the target; otherwise nothing changes |
| ConnectManager.Manager.UpdatePotentialConnectionProxy | libbitdht/src/bitdht/bdconnection.cc:737-756 | a peer that answered with the engine flag moves from potential to good in every request, and one without it changes nothing |
| ConnectManager.Manager.TickConnections | libbitdht/src/bitdht/bdconnection.cc:758-765 | requests first and then records: the tick of the theorems, for some visiting orders |
| ConnectManager.Manager.IterateConnectionRequests | libbitdht/src/bitdht/bdconnection.cc:767-948 | the loop over all requests, with erasure at the end, is the fold of the single visits |
| ConnectManager.Manager.IterateRequest | libbitdht/src/bitdht/bdconnection.cc:786-930 | one visit: unpausing, starting, and giving up after the timeout |
| ConnectManager.Manager.StartConnectionRequest | libbitdht/src/bitdht/bdconnection.cc:952-1050 | takes the first good proxy and starts the attempt, or ends the request as out of proxies |
| ConnectManager.Manager.CallbackConnectRequest | libbitdht/src/bitdht/bdconnection.cc:1053-1436 | ends, recycles or moves on by the error code, and reports |
| ConnectManager.Manager.StartConnectionAttempt | libbitdht/src/bitdht/bdconnection.cc:1438-1523 | installs the START_POINT record and sends the first REQUEST, unless one between the two nodes exists |
| ConnectManager.Manager.AuthConnectionOk | libbitdht/src/bitdht/bdconnection.cc:1525-1631 | the user's yes, as a step of the node |
| ConnectManager.Manager.AuthConnectionNo | libbitdht/src/bitdht/bdconnection.cc:1633-1701 | the user's no, as a step of the node |
| ConnectManager.Manager.IterateConnections | libbitdht/src/bitdht/bdconnection.cc:1703-1814 | the loop over all records: drops, retries, messages and reports, as the tick of the node |
| ConnectManager.Manager.IterateConnection | libbitdht/src/bitdht/bdconnection.cc:1714-1800 | what a tick does to one record, and whether it is dropped |
| ConnectManager.Manager.FindSimilarConnection | libbitdht/src/bitdht/bdconnection.cc:1918-1930 | answers whether any record runs from the one node to the other |
| ConnectManager.Manager.RecvedConnectionRequest | libbitdht/src/bitdht/bdconnection.cc:2083-2304 | a REQUEST, with every refusal, as a step of the node; it accepts exactly a mode it allows for a tuple without record and without an opposite one |
| ConnectManager.Manager.RecvedConnectionReply | libbitdht/src/bitdht/bdconnection.cc:2306-2458 | a REPLY, as a step of the node; it accepts exactly an OKAY for a record of the proxy that waits for it |
| ConnectManager.Manager.RecvedConnectionStart | libbitdht/src/bitdht/bdconnection.cc:2460-2573 | a START, as a step of the node; it accepts exactly for a record that waits for START or is completed |
| ConnectManager.Manager.RecvedConnectionAck | libbitdht/src/bitdht/bdconnection.cc:2575-2675 | an ACK, as a step of the node; it accepts exactly for a record of proxy or destination that waits for acks |
| PegReader.ReadIsEval | supportlibs/pegmarkdown/markdown_parser.c:150-214 | reading byte by byte, with backtracking, gives for every grammar and expression the answer and log of the meaning over the whole text, if no byte 0xff is still to come |
| PegReader.ReadsWholeTextIff | supportlibs/pegmarkdown/markdown_parser.c:46-60 | a parse answers as the grammar does on the whole text for all scoped grammars, start rules and depths if and only if no byte 0xff is still to be read |
| PegReader.DotsTakeDelivered | supportlibs/pegmarkdown/markdown_parser.c:46-60 | the witness for the other half: taking every byte there is takes what was read in and then what comes before the first 0xff |
| PegReader.LogIsBalanced | supportlibs/pegmarkdown/markdown_parser.c:2029-2045 | on every input, whatever was tried and given up, the log of a match has as many pops as pushes, never pops below its frame and stores only into values on the stack |
| PegMatcher.Context.Refill | supportlibs/pegmarkdown/markdown_parser.c:150-162 | on every input: one more byte is in the buffer, none is changed, unless the input is over or the byte is 0xff, which is lost |
| PegMatcher.Context.MatchDot | supportlibs/pegmarkdown/markdown_parser.c:164-169 | on every input: succeeds exactly when a byte is in the buffer or the next of the input is there and is not 0xff, and otherwise stays |
| PegMatcher.Context.MatchChar | supportlibs/pegmarkdown/markdown_parser.c:171-182 | on every input: succeeds exactly when that byte, and it is not 0xff from the input, is next |
| PegMatcher.Context.MatchString | supportlibs/pegmarkdown/markdown_parser.c:184-199 | on every input the loop reads and answers as reading the string byte by byte does; without 0xff to come it succeeds exactly when the string is next in the whole text |
| PegMatcher.Context.MatchClass | supportlibs/pegmarkdown/markdown_parser.c:201-214 | on every input: succeeds exactly when a byte of the class, and it is not 0xff from the input, is next |
| PegMatcher.Context.LogAction | supportlibs/pegmarkdown/markdown_parser.c:216-227 | appends one action to the log however often the log must grow |
| PegMatcher.Context.Done | supportlibs/pegmarkdown/markdown_parser.c:247-258 | adds to what has run exactly the ids at the actions' positions in the log, in order, and moves the value pointer by the height of the log |
| Peg.ActionsArePicked | supportlibs/pegmarkdown/markdown_parser.c:247-258 | what runs is the id at each action's position in the log, each once and in order, and nothing else |
| PegNotes.NotesRuns | supportlibs/pegmarkdown/markdown_parser.c:2029-2045 | on any text that goes on Notes takes all notes and skipped blocks, keeps two values, and runs the action that begins the list, after each note the one that adds it, and the one that ends the list |
| PegNotes.PlainNotes | supportlibs/pegmarkdown/markdown_parser.c:2034-2037 | n notes that run nothing themselves are added by n actions |
| PegMatcher.Context.Commit | supportlibs/pegmarkdown/markdown_parser.c:260-269 | the text left is the text behind the match |
| PegMatcher.Context.Run | supportlibs/pegmarkdown/markdown_parser.c:2653-2703 | for every grammar, expression and input the outcome, position, log and bytes read are those of reading the expression, and a failed rule restores position and log |
| PegMatcher.Context.RunRule | supportlibs/pegmarkdown/markdown_parser.c:2029-2045 | the frame of a rule, on every input: push and pop around its log, and both undone on failure |
| PegMatcher.Context.RunStar | supportlibs/pegmarkdown/markdown_parser.c:2668-2703 | the repetition template, on every input, with goto loop and restored failure of its last turn |
| PegMatcher.Context.ParseFrom | supportlibs/pegmarkdown/markdown_parser.c:6632-6654 | on every input a parse answers as reading the start rule does, runs the actions of the match in order, returns the value stack to its base and leaves what was not matched; without 0xff to come that is the grammar's answer on leftover text plus input |
| PegMatcher.FailsAt | supportlibs/pegmarkdown/markdown_parser.c:46-60 | a rule that takes any byte fails at a byte 0xff, and what is left is the text behind it |
| PegMarkdown.SourceContentsIsLongest | supportlibs/pegmarkdown/markdown_parser.c:2653-2703 | SourceContents always ends and succeeds and takes exactly the longest prefix whose parentheses match and that has no blank, tab, newline or '>' |
| PegMarkdown.SourceMeans | supportlibs/pegmarkdown/markdown_parser.c:2668-2703 | the rule stops where the direct recursive description of it says |
| PegMarkdown.SourceEndIsLongest | supportlibs/pegmarkdown/markdown_parser.c:2668-2703 | every well-nested prefix ends no later than that |
| PegMarkdown.SourceEndIsWellNested | supportlibs/pegmarkdown/markdown_parser.c:2668-2703 | and that prefix is well-nested |
| PegSource.SourceAnswers | supportlibs/pegmarkdown/markdown_parser.c:2653-2703 | on every input the rule comes to an end, succeeds and logs nothing |
| PegSource.ParseSource | supportlibs/pegmarkdown/markdown_parser.c:6632-6654 | running the rule on the runtime, with some of the text read in and some not, matches on every input, and without 0xff to come takes exactly the longest well-nested prefix and leaves the rest |
| PegLines.RawLineTakesOneLine | supportlibs/pegmarkdown/markdown_parser.c:6086-6112 | RawLine fails at the end of the text only and otherwise takes one line with its newline, which the last line may be without |
| PegLines.BlankLineTakesBlankLine | supportlibs/pegmarkdown/markdown_parser.c:6554-6562 | BlankLine takes exactly a line of spaces and tabs that has a newline |
| RankingTheorems.RunOk | plugins/LinksCloud/p3ranking.cc:396-520 | in every run the index is in order and holds exactly one pair per link with its rank, no rank is negative, ownTag holds exactly when we commented, and the anonymous list is anonymous |
| RankingTheorems.WithMsgAgrees | plugins/LinksCloud/p3ranking.cc:749-769 | adding any message keeps index and store in agreement, although the group's rank and its pair are replaced one after the other |
| RankingTheorems.SortedAllDetermined | plugins/LinksCloud/p3ranking.cc:771-792 | a full sort, whatever the state before, ranks every link as of now and leaves the one index that agrees with the store and has ties in the order of the ids |
| RankingTheorems.RanksAreOnlyStale | plugins/LinksCloud/p3ranking.cc:525-591 | in every run each stored rank is that of the link's present comments under the present settings, as of the time of some operation of the run |
| RankingTheorems.RankIgnoresOthers | plugins/LinksCloud/p3ranking.cc:628-653 | a rank depends only on the comments that pass the filter and, with scores, the view period |
| RankingTheorems.TimeRankIsMean | plugins/LinksCloud/p3ranking.cc:655-745 | sorted by time alone a rank is below one, and if positive it lies between the time scores of two comments that count |
| RankingLaws.RankMeans | plugins/LinksCloud/p3ranking.cc:690-745 | the rank by each sort method, over the comments that count: with score and time the sum of scores times weights, with score alone the sum of scores, with time alone the mean weight, never below zero, and zero if nothing counts or the weights do not add up to more than zero |
| RankingLaws.TimeScoreMeans | plugins/LinksCloud/p3ranking.cc:651-660 | the weight of a comment times the period is the period less its age on either side of now, positive exactly inside the period |
| RankingLaws.CountedMeans | plugins/LinksCloud/p3ranking.cc:624-649 | which comments count, in which order |
| RankingLaws.RankIsMonotone | plugins/LinksCloud/p3ranking.cc:671-682 | raising the score of a comment of non-negative weight never lowers the rank, in any method |
| RankingLaws.ScoreRaisesSums | plugins/LinksCloud/p3ranking.cc:671-682 | and raises the plain sum by the difference, the weighted one by the difference times its weight |
| RankingLaws.SettingsAreSet | plugins/LinksCloud/p3ranking.cc:525-591 | each setting is in force afterwards and alone, and a change of it ranks all links as of now |
| RankingLaws.LinkIsKept | plugins/LinksCloud/p3ranking.cc:409-443 | the first message of a link gives it its title and address, which no later one changes |
| RankingLaws.MessageIsFlagged | plugins/LinksCloud/p3ranking.cc:453-511 | a message asks for publication exactly if it is news of a peer, and changes nothing but links, index and that |
| RankingLaws.OurLinkIsStored | plugins/LinksCloud/p3ranking.cc:928-956 | a new link is stored with our comment, as of now, and is to be published |
| RankingLaws.OurCommentIsStored | plugins/LinksCloud/p3ranking.cc:962-1012 | our comment is stored with text, score and time, unless we said the same in the same second |
| RankingLaws.FileIsTaken | plugins/LinksCloud/p3ranking.cc:170-206 | the messages of a file are taken in order, in the time range as their signer's, and else not |
| RankingLaws.ConfigIsTaken | plugins/LinksCloud/p3ranking.cc:1296-1346 | the saved links are taken in order, for the store and, stripped, for the anonymous list |
| RankingLaws.AnonymousLinkIsListed | plugins/LinksCloud/p3ranking.cc:1017-1072 | a link recommended anonymously is listed once, and if new in the store without a comment |
| RankingLaws.PageMeans | plugins/LinksCloud/p3ranking.cc:814-833 | a page has the links from the one asked for on, by falling rank |
| RankingLaws.TickPublishes | plugins/LinksCloud/p3ranking.cc:880-910 | what a tick publishes and which marks it clears |
| RankingTheorems.PagesListEveryLinkOnce | plugins/LinksCloud/p3ranking.cc:814-833 | reading page after page, of any size, gives every link once and never one after a link of lower rank |
| RankingTheorems.MaxRankIsGreatest | plugins/LinksCloud/p3ranking.cc:804-812 | the rank reported as greatest is that of some link and no link exceeds it |
| RankingStreams.PublicationSplits | plugins/LinksCloud/p3ranking.cc:257-337 | in every run each commented link and no other is put out once: our comment, never missing, by the own loop if we made one, else a sanitised copy of the first comment by the friends' loop |
| RankingStreams.FriendsFileIsAnonymous | plugins/LinksCloud/p3ranking.cc:300-356 | in every run every message of the friends' file, anonymous list included, has no peer, no comment and no score |
| RankingStreams.WithMsgComments | plugins/LinksCloud/p3ranking.cc:453-511 | a message replaces its sender's comment on its link exactly when he had none or one of another time or text, and touches no other comment |
| RankingStreams.OwnFileIsRepublished | plugins/LinksCloud/p3ranking.cc:484-494 | a message that changes the own file always asks for it to be published again |
| RankingStreams.OwnFileIsUpToDate | plugins/LinksCloud/p3ranking.cc:880-910 | in every run, ticks included, the own file last published is the present one or is marked to be published again |
| RankingStreams.FriendsFileIsRepublishedIff | plugins/LinksCloud/p3ranking.cc:484-503 | a message changes the friends' file without asking for it to be published if and only if it is our first comment on a link others commented on |
| RankingStreams.TakeOverIsMissed | plugins/LinksCloud/p3ranking.cc:484-503 | a run that gets there: a friend's link, a tick, our comment; the published friends' file still has the link, the present one does not, and no flag is set |
| RankingService.Service.CalcRank | plugins/LinksCloud/p3ranking.cc:593-746 | the loop computes the rank function of the comments that pass filter and age |
| RankingService.Service.RemovePair | plugins/LinksCloud/p3ranking.cc:754-763 | takes the first pair of that rank and link out of the index and nothing else |
| RankingService.Service.ReSortGroup | plugins/LinksCloud/p3ranking.cc:749-769 | one link is ranked anew and its pair moved |
| RankingService.Service.SortAllMsgs | plugins/LinksCloud/p3ranking.cc:771-792 | the loop over the store rebuilds ranks and index as specified |
| RankingService.Service.AddRankMsg | plugins/LinksCloud/p3ranking.cc:396-520 | store, index and publication flags after any message |
| RankingService.Service.SetSortPeriod | plugins/LinksCloud/p3ranking.cc:525-541 | sorts anew only if the period changes, and keeps the invariant |
| RankingService.Service.SetSortMethod | plugins/LinksCloud/p3ranking.cc:543-559 | sorts anew only if the method changes, and keeps the invariant |
| RankingService.Service.ClearPeerFilter | plugins/LinksCloud/p3ranking.cc:561-578 | sorts anew only if there was a filter, and keeps the invariant |
| RankingService.Service.SetPeerFilter | plugins/LinksCloud/p3ranking.cc:580-591 | sorts anew always, and keeps the invariant |
| RankingService.Service.GetMaxRank | plugins/LinksCloud/p3ranking.cc:804-812 | no link of the store has a greater rank |
| RankingService.Service.GetRankings | plugins/LinksCloud/p3ranking.cc:814-833 | the page of the index read backwards, cut off at its end |
| RankingService.Service.UpdateComment | plugins/LinksCloud/p3ranking.cc:962-1012 | fails exactly for an unknown link, and else adds our comment |
| RankingService.Service.NewRankMsg | plugins/LinksCloud/p3ranking.cc:928-956 | adds our comment under the new id |
| RankingService.Service.AnonRankMsg | plugins/LinksCloud/p3ranking.cc:1017-1072 | a new link enters the store without comment, and any link the anonymous list |
| RankingService.Service.AddAnonToList | plugins/LinksCloud/p3ranking.cc:1228-1251 | adds the message exactly when its link is not in the list |
| RankingService.Service.LoadRankFile | plugins/LinksCloud/p3ranking.cc:134-209 | adds exactly the messages in the time range, under the peer who signed them |
| RankingService.Service.LoadList | plugins/LinksCloud/p3ranking.cc:1276-1349 | adds exactly the messages in the time range to the store and, stripped, to the anonymous list |
| RankingService.Service.PublishMsgs | plugins/LinksCloud/p3ranking.cc:212-356 | puts out the own file or the friends' file of the theorems; the lookup of the own comment never misses |
| RankingService.Service.Tick | plugins/LinksCloud/p3ranking.cc:880-910 | publishes what is marked, the friends' file once a minute at most and no file without messages, and clears the marks |
| BdTable.FindsStored | libbitdht/src/bitdht/bdpeer.cc:130-147 | a search tree over peers of which no two are crossed finds a peer exactly if it is stored, at its place, whatever shape the tree has |
| BdTable.JoinedMembers | libbitdht/src/bitdht/bdhistory.cc:415-425 | a set ordered by that order, crossed peers or not, never loses a member |
| BdHistory.RunIsIndexed | libbitdht/src/bitdht/bdhistory.cc:325-340 | in every run over peers of which no two are crossed each peer's list is a sub-multiset of the timeline restricted to that peer, and equal to it if the lists were never cleared |
| BdHistory.CleaningIsExact | libbitdht/src/bitdht/bdhistory.cc:404-443 | among such peers cleaning only the lists the index points to leaves each list as if it had been filtered itself |
| BdHistory.CleanupIsSoundIff | libbitdht/src/bitdht/bdhistory.cc:404-443 | a cleanup leaves no expired message and drops no fresh one, in every run over a set of peers and however the tree is kept, if and only if no two of the peers are crossed |
| BdHistory.RedBlackTreeMisses | libbitdht/src/bitdht/bdhistory.cc:429-441 | one node recorded at (1,2), (2,1) and (3,3): with the trees a red-black tree then has, the cleanup does not find the first address and its expired message stays |
| BdHistoryLaws.RecordingAdds | libbitdht/src/bitdht/bdhistory.cc:325-340 | recording adds exactly this message to the timeline and to one list of the peer, and changes no other list |
| BdHistoryLaws.CleanupTakes | libbitdht/src/bitdht/bdhistory.cc:404-443 | what a cleanup takes from the timeline and from which lists |
| BdHistoryLaws.ClearingLeaves | libbitdht/src/bitdht/bdhistory.cc:43-63 | clearing leaves the end of a list from the first message that is not earlier, or nothing for time zero |
| BdHistoryLaws.CountIsOfAll | libbitdht/src/bitdht/bdhistory.cc:32-41 | the count is the number of positions in the closed interval |
| BdHistoryLaws.ForgettingEmpties | libbitdht/src/bitdht/bdhistory.cc:445-456 | every list is emptied, its peer and the timeline stay |
| BdHistory.History.AddMsg | libbitdht/src/bitdht/bdhistory.cc:325-340 | the message is in the list the tree finds for the peer, or in a new one where the search ended, and in the timeline, after those of the same time |
| BdHistory.History.SetPeerType | libbitdht/src/bitdht/bdhistory.cc:342-347 | an empty list is entered if the tree finds none |
| BdHistory.History.MsgClear | libbitdht/src/bitdht/bdhistory.cc:43-63 | erasing from the front keeps exactly what is not older, or nothing for time 0 |
| BdHistory.History.MsgCount | libbitdht/src/bitdht/bdhistory.cc:32-41 | the number of messages in the closed interval, for every interval whose lower bound is not behind its upper bound in the list |
| BdHistory.History.CleanTimeline | libbitdht/src/bitdht/bdhistory.cc:411-425 | the timeline loses what is old, and the answer is the set of peers that were in it |
| BdHistory.History.CleanPeers | libbitdht/src/bitdht/bdhistory.cc:427-441 | the lists that looking these peers up reaches lose what is old |
| BdHistory.History.CleanupOldMsgs | libbitdht/src/bitdht/bdhistory.cc:404-443 | both loops together are the cleanup of the theorems |
| BdHistory.History.ClearHistory | libbitdht/src/bitdht/bdhistory.cc:445-456 | every list is empty, the timeline as it was |
| BdHash.RunKeepsSecretsUnique | libbitdht/src/bitdht/bdhash.cc:74-136 | over every run a key, value and secret have at most one entry, and entries stay in key order |
| BdHash.DeleteIsExact | libbitdht/src/bitdht/bdhash.cc:100-120 | the DELETE that knows the secret removes its entry entirely and no other |
| BdHash.RunKeepsOpens | libbitdht/src/bitdht/bdhash.cc:84-99 | over every run the number of secret-less entries of a value that live until any given time never falls |
| BdHashLaws.AddStores | libbitdht/src/bitdht/bdhash.cc:74-136 | an ADD always leaves an entry with the key, value, secret, time and lifetime: the matching entries that may be renewed get them and all others stay, or there is exactly one entry more, behind those of its key |
| BdHashLaws.AddedIsFound | libbitdht/src/bitdht/bdhash.cc:46-63 | what is added is found by a search that asks for an age it has not reached |
| BdHashLaws.DeleteTakes | libbitdht/src/bitdht/bdhash.cc:110-116 | a DELETE that knows the secret takes the first entry with it, and every other command but ADD changes nothing |
| BdHashLaws.ChangeIsReported | libbitdht/src/bitdht/bdhash.cc:115-135 | the answer says whether there was an ADD or something was taken |
| BdHashLaws.SearchFinds | libbitdht/src/bitdht/bdhash.cc:46-63 | a search goes through the entries in order and finds those of the key younger than asked for |
| BdHashLaws.CleanupKeeps | libbitdht/src/bitdht/bdhash.cc:161-184 | a cleanup keeps, in order, what is neither older than asked for nor past its lifetime |
| BdHash.HashSet.Search | libbitdht/src/bitdht/bdhash.cc:46-63 | appends exactly the young enough entries of the key, in order, and reports whether the list it fills is non-empty |
| BdHash.HashSet.Modify | libbitdht/src/bitdht/bdhash.cc:74-136 | the loop with early return does what the three rules say, and reports whether it changed anything |
| BdHash.HashSet.Cleanup | libbitdht/src/bitdht/bdhash.cc:161-184 | the loop that starts again after each removal ends and equals one pass that filters by age |
| BdHash.HashSpace.Modify | libbitdht/src/bitdht/bdhash.cc:212-230 | one id's entries change as the rules say, all others stay, and a DELETE for an unknown id changes nothing |
| BdPeer.TupleOrderIsTotal | libbitdht/src/bitdht/bdconnection.cc:1828-1859 | the order of the connection table is strict, transitive, and total up to equality |
| BdPeer.PeerOrderIsNotAsymmetric | libbitdht/src/bitdht/bdpeer.cc:130-147 | there are two peers each of which is below the other |
| BdPeer.PeerOrderIsTotalIff | libbitdht/src/bitdht/bdpeer.cc:130-147 | on a set of peers it is a strict total order if and only if no two of them have ids and addresses in opposite orders |

## Left out

- Network and addresses: sockets and packet encoding; a send adds a message to a set, and an address is a number that decoding the packet supplies.
- Candidate peers: what the node space and the queries know is not part of this model; the lists they answer are inputs, with ids that fit the query and never the node's own.
- Clock: one `now` for each step, where the code calls `time(NULL)` several times; times and delays are unbounded integers.
- Node ids: numbers; the all-zero id, which the code uses as the blank one, is the own id of no node.
- Modes: one of DIRECT, PROXY and RELAY, where the code has a bit field; the error word is modelled by its three disjoint fields.
- Configuration: options and relay mode are fixed during the runs of the theorems, though the object can change them.
- Records: values in the two tables, where the code updates records by pointer; no two records share state in it.
- ConnectManager.Manager.RequestProxied: does not model the pings to potential proxies and the queries for friends of friends that the call also sends.
- Visiting order: a tick visits requests and records in any order, where the code goes by key.
- Callbacks: appended to a list; the user's answers arrive as later inputs.
- ConnectRequests.RunLinked: excludes user cancellation, which erases a request under a live record.
- ConnectAttempts.FailuresCovered: excludes user cancellation for the same reason.
- ConnectBudget.AttemptsAreBounded: excludes user cancellation for the same reason; counts from the latest creation of the request.
- DONE requests: not claimed final, since a failure that is not fatal sets PAUSED whatever the state was.
- PegMatcher.Context.Run: carries a bound on nested calls and iterations, in place of the C stack; where the bound is hit the model gives up, and PegReader.FuelIsEnough shows that a larger one never changes an answer.
- PegMatcher.Context.LogAction: does not model the begin and end positions stored with an action.
- PegMatcher.Context.Done: does not model the captured text handed to the actions.
- PegSource.ParseSource: says how much is taken only when no byte 0xff is to come; on other input PegReader.Read says it.
- Text of captures: begin and end positions are not restored on backtracking by the code; the actions that run are modelled, their captured text is not.
- Value stack: only its pointer; its 32 slots are not checked by the code and unbounded here, so that frames nested deeper than that are not modelled.
- Other grammar rules: about two hundred; they are parameters of the grammar and none of the theorems depends on them.
- Allocation: buffers grow by doubling as in the code, but never fail to.
- Ranks: real numbers in place of floats.
- Link and peer ids of the ranking service: numbers that order as the strings do, 0 for the empty one; random link ids are inputs and may collide.
- RankingService.Service.Tick: is one step, where the code clears its flags under a second lock after publishing, so that a change in between can be missed.
- RankingStreams.OwnFileIsUpToDate: leaves out loadLocalCache, which loads the own file at startup and clears its mark.
- Link messages on the wire: RsRankSerialiser and the cache files; a file is a list of messages.
- RankingStreams.FriendsFileIsRepublishedIff: speaks of added messages only; loading the saved anonymous links also fills the friends' file without a flag.
- BdHistory.RunIsIndexed: for times that are not negative; msgClear takes time 0 to mean everything.
- BdHistory.History.MsgCount: leaves out intervals whose lower bound is behind the upper bound in the list, on which the loop of the code runs past the end.
- BdTable.Find: the shape of the tree is a parameter of each operation; rebalancing is not modelled.
- Peer versions: setPeerType only enters a list.
- bdHashSpace::cleanHashSpace: its list of ids to erase is never emptied, so the loop need not end; no claim.
- BdHash.Entries: keys are numbers that order as the strings do.
- Rest of the repository: user interface, filters on disk, printing, accounts and friend lists would add only easy members.
