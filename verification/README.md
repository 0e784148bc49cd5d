# A verified model of conversd

conversd links hosts into a tree over which users chat. This project models the parts of it where
being right is hardest, and proves what they keep: the link and presence machine of one host, the
spreading of a channel message over the whole network, the flood limiter, the static Huffman codec,
streaming MD5, the framing of link input, the lock-flag traversals, and two pieces of the .NET server
that restate conversd's rules (channel modes and topics).

| file | what it models |
|---|---|
| `Server.dfy` | one host as a class: connections, link table with chains of primary and backup links, destinations, the DEST lines it writes; every command, link loss and periodic work as a method; `Run` drives any sequence of events |
| `Effects.dfy` | what each event does: `Shows` relates the state after it to the state before, connection by connection, link by link, entry by entry and line by line |
| `ServerState.dfy`, `Chains.dfy`, `LinkSteps.dfy`, `Greeting.dfy` | the state as values, what has to hold of it, and what each elementary change does to it |
| `ChannelCast.dfy`, `TreeCast.dfy`, `SignOn.dfy` | the lock-flag loop that relays a channel message at one host, runs of one message through a tree of hosts, and the spreading of users who come and go, which builds the user tables such runs go by |
| `FloodLimiter.dfy` | the rate limit and delay queue of a user record |
| `Framing.dfy` | cutting a byte stream into lines in a fixed buffer |
| `HuffmanTables.dfy`, `Huffman.dfy`, `HuffmanCertificate.dfy`, `HuffmanAgreement.dfy` | the codec over any pair of tables that agree, and the proof that the tables of conversd do |
| `Md5Block.dfy`, `Md5.dfy` | RFC 1321, straight-line and streaming |
| `Enumeration.dfy`, `MapTraversal.dfy`, `History.dfy` | enumeration by lock flags and user counting, the map, channel history |
| `Modes.dfy`, `Topics.dfy` | the mode language in two dialects, newest-wins topics |

## How to read it

What the code changes step by step is a class or a method with loops; each method is tied by its
`ensures` to a function or predicate on values, and the properties are proved of those. The central
invariant is `Server.Server.Valid`. Its parts are

* `PresenceOk`: users without a `via` are exactly those of our own host, every other live user came over
  a live neighbour, and all users of one host came over the same one;
* `LinksOk`: link names and connections are unique, and a host connection bears the name of its link
  and always has one;
* `ChainsOk`: `primary` and `backup` are inverse to each other and acyclic (each link has a rank in its
  chain, and walking reaches everything in between);
* `OneLive`: at most one link of a chain holds a host connection;
* `RoutesOk`: the destinations are strictly sorted, and rtt, `link` and `connected` are set together
  and lead over a live link;
* `AllAnnounceOk`: of all DEST lines ever written, none went to the node it is about; none that told of a
  live route went over the link that route leads over; none that told of a dead one went over the link
  the route led over until then; and rtt 0 was said of dead routes only. For dead routes this rests on
  every report of rtt 0 coming over the very link the route leads over, which `UpdateDestinations` demands
  and each of its callers is shown to meet.

What a run does beside keeping this is `Effects.Shows`, which `Perform` promises of every event and `Run` of
every step of every run. It says of each connection, link, entry and DEST line whether it is there afterwards
and why, mostly by quantifiers over the two states: whom a sign-on adds, a part or a quit closes, a lost
neighbour takes with it (`NeighbourGone`), what a report enters and who is told of it (`Heard`), what becomes of
a caller (`Joined`, `Rejected`), and what the periodic work and the configuration leave.

Assumptions, as far as they are not spelt out in a precondition: host and user names are case-folded
and fit their fields; times on the wire are not negative (`SaidExact` shows what a negative one would
do); output queues do not overflow; filters are off; connection identities are not reused; a channel
that a host's mode line names exists; a channel message is one that every host passes (`Passes`: no sender
name under three characters, no empty text) and no flood limiter holds back. `Server.Server.Admissible` lists what is taken for granted of an event:
a host we called does not answer with the name of another link (exactly what keeps link names
different, `RenameExact`, `WrongAnswer`); a link line for a name that is in the table is one its chain
survives, which is exactly when the link has no backup, and no primary either unless it is added behind a
link above it (`ReaddExact`), and does not put a live link behind another live one (`LinkedOneLive`); and a
link that expires has no neighbour in a chain (`ExpireExact`; `ExpiryBreaksChain` is a run that gets there).

Where a promise is not kept by the code, the exact condition is proved and a failing input is given:
chunk independence of link input (`ExactCondition`, `OverlongLine`), the count of users (`CountExact`,
`HiddenByTwin`), the agreement of the two mode dialects (`DialectsAgree`, `DialectsDiffer`), the history
limit (`BoundExact`, `OneTooMany`), chains when a link is added again, or expires (`ReaddExact`,
`ExpireExact`, `TwoLinkChain`).

## Model

| member | source | states |
|---|---|---|
| Server.Server.Run | reference/conversd-saupp/host.c:586-2430 | any sequence of events, up to the first that breaks an assumption, is performed and leaves the state valid: loop protection, one live link per chain, inverse acyclic chains, the routing table, split horizon and the dead-route sentinel hold in every reachable state; the states passed through are a trace in which each event did what `Shows` says of it |
| Server.Server.Perform | reference/conversd-saupp/conversd.c:238-272 | an event does exactly what `Shows` says: the connections, links, entries and lines after it in terms of those before, for lines by what the connection is, for connecting, calling and losing, for the sweeps over connections and entries, and for silence, expiry and configuration of links; validity is kept |
| Server.Server.Obey | reference/conversd-saupp/conversd.c:238-272 | a USER line of a host that is not a loop adds exactly that user, a part closes exactly the session named, SQUIT and UQUIT exactly who they are about, DEST and PONG enter what they report; a loop takes the link down; any other line changes nothing |
| Server.Server.constructor | reference/conversd-saupp/conversd.c:4140-4141 | a host that has just started is in a valid state, with as many link slots as configured, all free |
| Server.Server.HostCommand | reference/conversd-saupp/host.c:586-1088 | the verdict on a calling host is the one `Admission` defines from the state before (declaratively: who is live where in the chain, not by walking); refused callers change nothing, a wrong password leaves only the name behind. An accepted one holds its link, the only one that changed, is an established neighbour, has been told every live entry that is not learned, has a hop count of 0 or more and leads over another link, with rtt + 1 and exactly once, and nothing else, and all other neighbours have been told of it. All others are closed: a locked or outranked one alone, a reorganisation with a live link of the chain that is locked and makes way, a caller known elsewhere with its own link locked; connections, links and live routes outside the chain stay as they are. Validity is kept, also on the reconnect path that skips the chain checks |
| Server.Server.FindSelf | reference/conversd-saupp/host.c:671-697 | the search settles the caller's own link: an old live connection is closed with all that came over it and the link is not "found", otherwise the link is found and bears the caller's name; nothing else changes |
| Server.Server.LiveUp | reference/conversd-saupp/host.c:718-753 | walking `primary` ends, and finds a live link exactly if any link of higher priority in the whole chain is live |
| Server.Server.LiveDown | reference/conversd-saupp/host.c:754-781 | walking `backup` ends, and finds a live link exactly if any link of lower priority in the whole chain is live |
| Server.Server.AskChain | reference/conversd-saupp/host.c:704-781 | lock, working superior, live relative: the answer is `ChainVerdict`, a statement about all links of the chain |
| Server.Server.CheckChain | reference/conversd-saupp/host.c:704-781 | a locked or outranked caller alone is closed; for a reorganisation a live relative is locked and goes too, with what came over it and the routes over it and nothing else, and then no other link of the chain is live |
| Server.Server.Supersede | reference/conversd-saupp/host.c:732-776 | the old link is dead and locked, its routes are cut, the caller, the old connection and what came over it are closed and nothing else, and no link came alive |
| Server.Server.Attach | reference/conversd-saupp/host.c:827-880 | the caller becomes a host and holds the link of its name, or a new one; only a full table leaves it without; no live route is touched |
| Server.Server.Admit | reference/conversd-saupp/host.c:827-1088 | with room in the table the caller is established (link, times 3 and -1, a one-hop route that is learned if the revision is a dash), the link table is exactly `Welcomed`, the caller has been greeted and the others told of it, else it is closed; live routes to others stay as they are |
| Server.Server.GreetHost | reference/conversd-saupp/host.c:885-906 | exactly the due routes with a hop count of 0 or more are told to the new neighbour, each once, with one more than its rtt, and every line is sound; an entry with a negative hop count is never told |
| Greeting.Greet | reference/conversd-saupp/host.c:885-906 | going through the table once per occurring hop count ends and tells each due entry with a hop count of 0 or more exactly once |
| Greeting.PassDone | reference/conversd-saupp/host.c:889-904 | a pass accounts for everything up to the next hop count that occurs, and the last one for all the rest |
| Greeting.OwedOk | reference/conversd-saupp/host.c:896-901 | what is told is not about the neighbour, not of its own routes, and not of dead ones |
| Greeting.OwedIsGreeting | reference/conversd-saupp/host.c:885-906 | what is owed is, by quantifiers over entries and lines, what has to be told: every tellable entry has its line, every line is about a tellable entry, and no two lines are about the same one |
| Server.Server.CheckHost | reference/conversd-saupp/host.c:1783-1841 | passes exactly if the host is not ours, no user of it came another way and no live route leads elsewhere; then a host that was not reached is learned as one hop behind this neighbour; otherwise the link is taken down with everything behind it |
| Server.Server.FindStray | reference/conversd-saupp/host.c:1809-1828 | finds a user of the host with another `via` exactly if there is one |
| Server.Server.LoopHandler | reference/conversd-saupp/host.c:1590-1632 | the link is locked, exactly its connection and all that came over it are closed, exactly the routes over it are cut, and of each of them every other live neighbour but the one it leads to has been told rtt 0 once |
| Server.Server.Dismiss | reference/conversd-saupp/user.c:297-341 | the same without the lock, for a neighbour that is lost or quits |
| Effects.LoopingMeans | reference/conversd-saupp/host.c:1783-1828 | what the loop check finds is that a neighbour speaks for ourselves, for a host whose live route leads over the connection of another link, or for one with a user that came another way |
| Effects.BehindMeans | reference/conversd-saupp/host.c:1709-1733 | a quit is obeyed exactly if the live route of the host leads over the connection of this neighbour, or, without a route, whoever came last from the host came over it |
| Server.Server.UserJoin | reference/conversd-saupp/host.c:2304-2330 | a sign-on closes the link if it shows a loop, and else adds exactly one user with that `via`, or none if it repeats a known one, and its host is learned if it was not reached; loop protection is kept |
| Server.Server.AddUser | reference/conversd-saupp/host.c:1907-1934 | a user that came over a neighbour is added when no user of its host came another way; validity is kept |
| Server.Server.UserPart | reference/conversd-saupp/host.c:2372-2419 | a part closes the one session found on that channel, or nothing, or the link if there is a loop |
| Server.Server.Quit | reference/conversd-saupp/host.c:1634-1760 | SQUIT and UQUIT take the link down if they are about it, close exactly the users of the host (or the one user) that came over this neighbour if the host is behind it, and else change nothing |
| Server.Server.TowardsHere | reference/conversd-saupp/host.c:1709-1733 | the route decides, and only without one the newest user of the host, who stands first in the list |
| Server.Server.DestCommand | reference/conversd-saupp/host.c:275-340 | a report of our own host or of one routed over another link takes the link down; any other is entered over this link with its rtt, its hops and its neighbour completed from the live entry, other entries stay, and unless merely learned exactly the neighbours who have to hear of it are told |
| ServerState.RouteDetail | reference/conversd-saupp/host.c:316-334 | a dead report carries no hops and no neighbour, a complete one is taken as it is, and a live one without a neighbour has at least one hop |
| Server.Server.PongCommand | reference/conversd-saupp/host.c:1282-1316 | the sending time is smoothed by a sixth, the reported time taken as it is, both are at least 1, and afterwards a live route leads to the neighbour, over its link in the mean of both or over another one in no more; the report is heard as any other |
| ServerState.Ponged | reference/conversd-saupp/host.c:1284-1305 | smoothed sending time, reported time and the mean of both are at least 1 from any previous time |
| Server.Server.UpdateDestinations | reference/conversd-saupp/conversd.c:3938-4121 | nothing changes if a route that is not longer leads over another link; else the entry says what was reported, or is dead; unless merely learned, exactly one line goes over each live link but the reporting one that bears neither the name reported nor that of the reporting link, with rtt 0 or the rtt plus the time of that link, and no line over any other; before them a neighbour with a new time is told, once each, exactly the routes whose time is off by a third; other entries keep everything else (`Heard`) |
| Server.Server.InsertionPoint | reference/conversd-saupp/conversd.c:3969-3985 | every entry before the place is smaller than the new name and every one from it on greater |
| Server.Server.Put | reference/conversd-saupp/conversd.c:3956-3986 | an entry replaces the one of its name or is inserted where the order wants it; sortedness and soundness of all routes are kept |
| Server.Server.Tell | reference/conversd-saupp/conversd.c:4093-4110 | exactly the lines of `SaidTo` are written: one for each live neighbour who has to hear of it, and all of them are sound |
| ServerState.SaidToOk | reference/conversd-saupp/conversd.c:4093-4110 | split horizon and the dead-route sentinel for every table, link and non-negative rtt, for dead routes too if only the link a route leads over declares it dead |
| ServerState.SaidExact | reference/conversd-saupp/conversd.c:4099-4104 | a line about a dead route is sound exactly if it does not go to the link the route led over, one about a live route exactly if the reported time does not cancel out against the time of the link |
| ServerState.SaidIsRight | reference/conversd-saupp/conversd.c:4093-4110 | the lines of `SaidTo` are, by quantifiers over links and lines, exactly those that have to be written: one for every neighbour who has to hear of it, none for any other, each with the right time |
| ServerState.RestatedRight | reference/conversd-saupp/conversd.c:4057-4086 | a neighbour with a new time is told exactly the live routes over other links of which three times the change exceeds the sum of both times told before, each once, with the new time added |
| ServerState.ObituariesMourn | reference/conversd-saupp/conversd.c:4149-4166 | of each route that dies with a link, exactly those who have to hear of it are told rtt 0, once each, and nothing else is told |
| Server.Server.Reestimate | reference/conversd-saupp/conversd.c:4057-4086 | exactly the routes over other links whose announced time is off by a third are announced again, in order, none of them the neighbour's own or about it; nothing but their `lastSent` changes |
| Server.Server.DropRoutes | reference/conversd-saupp/conversd.c:4149-4166 | after a link is lost the table is `Bereft` of it, no route refers to it any more, and for every route that died each neighbour who has to hear of it has been told rtt 0 exactly once, and nobody anything else |
| Server.Server.UpdatePermlinks | reference/conversd-saupp/conversd.c:4125-4231 | the link table is `Relink` of the old one, the slot is the one of that name or the first free one, and the whole network state is in order, the lost link's routes gone |
| Server.Server.RouteCleanup | reference/conversd-saupp/conversd.c:907-922 | every entry becomes `Cleaned`, and soundness is kept |
| LinkSteps.CleanedCut | reference/conversd-saupp/user.c:300-341 | losing a link and the clean-up after it cut exactly the routes over that link |
| Server.Server.Bye | reference/conversd-saupp/user.c:256-345 | a host goes with exactly the users that came over it and the routes over its link, and the others are told of each; anything else goes alone; from every valid state to a valid state |
| Server.Server.CloseUsers | reference/conversd-saupp/user.c:319-333 | exactly what came over the connection is closed |
| LinkSteps.CloseOverSteps | reference/conversd-saupp/user.c:297-341 | closing the connection first and its users afterwards ends with presence in order |
| Server.Server.FreeClosed | reference/conversd-saupp/conversd.c:1036-1085 | exactly the closed connections and unanswered calls are freed, exactly the links that held one have none, and the state stays valid: no live user points at a freed connection, and no link does |
| Server.Server.Free | reference/conversd-saupp/conversd.c:973-1032 | a freed connection is taken from the link that held it |
| Server.Server.ExpireDests | reference/conversd-saupp/conversd.c:924-954 | exactly the dead and outdated entries go, of each outdated one that was alive the neighbours who have to hear of it are told rtt 0 exactly once, and validity is kept |
| Server.Server.LinkTimeout | reference/conversd-saupp/conversd.c:4309-4319 | an unanswered neighbour loses its times and every route over it, and the others are told |
| Server.Server.ExpireLink | reference/conversd-saupp/conversd.c:4356-4364 | exactly unlocked, unused links that were not configured go, and the state stays valid if such a link has no neighbour, which is exactly when its chain stays whole (`ExpireExact`) |
| Server.ExpiryBreaksChain | reference/conversd-saupp/conversd.c:4360-4363 | from a host that has just started, the four events of its log, each admissible, lead to a valid state in which the expiry of an unused link leaves its backup with a primary that is gone |
| Server.Server.Call | reference/conversd-saupp/conversd.c:4614-4629 | calling a host gives its link a new connection that is nobody's yet |
| Server.Server.Login | reference/conversd-saupp/user.c:6582 | a local user has our host and no `via`; presence stays in order |
| Server.Server.DoLink | reference/conversd-saupp/config.c:223-324 | a new link takes the first free slot and becomes the last of its primary's chain, whatever link of the chain was named and however that link came about; a link that is in the table stays as it is or, if it stood alone, goes to the end of the named link's chain; validity is kept |
| Server.Server.Rewire | reference/conversd-saupp/config.c:277-309 | clearing the pointers of a link, walking down from the named primary but not past the link itself, and setting them anew gives `Readded` |
| Server.Server.ReplaceLink | reference/conversd-saupp/user.c:1844-1913 | an operator's replacement of a link is always harmless: it closes exactly the old connection and what came over it, cuts the link off and drops it, and configures it afresh in the first free slot |
| Server.Server.CutOff | reference/conversd-saupp/user.c:1851-1861 | every pointer to the old link is cleared, and its slot |
| Server.Server.Check | reference/conversd-saupp/config.c:277-309 | whether an event is admissible can be found out by walking the chains in question |
| Chains.SeverOk | reference/conversd-saupp/user.c:1851-1861 | cutting a link off from both neighbours leaves two chains in order |
| Server.Server.ChainEnd | reference/conversd-saupp/config.c:287-303 | walking `backup` ends at the one link of the chain without a backup |
| Server.Server.DeleteLink | reference/conversd-saupp/user.c:1936-1973 | a live connection is closed with exactly what came over it and the routes over the link, the link is taken out and its neighbours become each other's |
| Server.Server.Splice | reference/conversd-saupp/user.c:1950-1957 | exactly the two neighbours change, to each other |
| Chains.AppendOk | reference/conversd-saupp/config.c:281-315 | appending keeps the pointers inverse and the chains acyclic and complete |
| Chains.RemoveOk | reference/conversd-saupp/user.c:1950-1957 | taking any link out keeps that |
| Chains.ReaddExact | reference/conversd-saupp/config.c:277-309 | adding a link that is in the table again keeps the pointers inverse exactly if it has no backup, and no primary either unless it is added behind a link above it in its own chain |
| Chains.ReaddOk | reference/conversd-saupp/config.c:277-309 | and then nothing changes, or a link that stood alone ends another chain, all chains in order |
| Chains.ExpireExact | reference/conversd-saupp/conversd.c:4360-4363 | dropping a link without mending its chain keeps the pointers inverse exactly if it had no neighbour |
| Chains.TwoLinkChain | reference/conversd-saupp/config.c:277-309 | in a chain of two links, adding the second again behind the first changes nothing; without a primary, or adding the first again, the chain breaks, and the first behind the second makes a cycle; dropping either breaks it |
| Chains.WalkUp | reference/conversd-saupp/conversd.c:4274-4279 | each step to the primary leaves fewer links below and skips none |
| Chains.WalkDown | reference/conversd-saupp/conversd.c:4265-4273 | each step to the backup leaves fewer links above and skips none |
| LinkSteps.JoinHost | reference/conversd-saupp/host.c:827-834 | making a caller a host keeps one live link per chain when its own link and the rest of the chain are dead |
| LinkSteps.SearchedMayJoin | reference/conversd-saupp/host.c:671-781 | after the search, and the chain check if there was one, those are dead; on the reconnect path this follows from the invariant alone |
| LinkSteps.RenameExact | reference/conversd-saupp/host.c:684-690 | correcting the name of a link keeps link names different exactly if no other link bears the new name |
| LinkSteps.WrongAnswer | reference/conversd-saupp/host.c:684-690 | it happens: a host we called answers with the name of another link of ours |
| LinkSteps.LinkedOneLive | reference/conversd-saupp/config.c:306-309 | putting a link behind another chain keeps one live link per chain exactly if not both it and a link of that chain are live |
| LinkSteps.SetTable | reference/conversd-saupp/conversd.c:4167-4228 | writing a slot that fits keeps the whole link table in order |
| LinkSteps.UnlinkedOk | reference/conversd-saupp/user.c:1948-1958 | so does taking a dead link out |
| LinkSteps.LinkedTable | reference/conversd-saupp/config.c:285-309 | so does putting a link behind the end of a chain, if not both are live |
| ServerState.CloseOverPresence | reference/conversd-saupp/user.c:319-333 | closing a neighbour and what came over it keeps presence in order |
| ServerState.JoinPresence | reference/conversd-saupp/host.c:1907-1934 | so does adding a user whose host has no users elsewhere |
| ChannelCast.Switchboard.SendToMembers | reference/conversd-saupp/conversd.c:3531-3600 | the lock-flag loop writes to each unlocked connection exactly what is due to it, and to no other |
| ChannelCast.Switchboard.Relay | reference/conversd-saupp/host.c:126-157 | a relayed message that is not dropped or blocked goes once to every neighbour but the sender with a user on the channel behind it, once to every local member, and nowhere else; a local channel stays off the links |
| ChannelCast.Switchboard.ClearLocks | reference/conversd-saupp/conversd.c:1690-1696 | no connection is locked afterwards |
| ChannelCast.BehindIsOnward | reference/conversd-saupp/conversd.c:3531-3552 | the loop's "somebody behind it" is the presence table's set of next hops |
| TreeCast.ExactlyOnce | reference/conversd-saupp/conversd.c:3531-3600 | in every run over any tree with truthful tables the message stops within as many steps as there are hosts; at no time has a user been written to twice, or one who is not addressed at all; and at the end exactly the addressed ones have been written to: other users on the channel such that every host on the path to them, up to the last, has the channel and does not keep it off its links |
| TreeCast.OnlyForwarders | reference/conversd-saupp/conversd.c:3547-3552 | in no run is there a message from a host that does not have the channel or keeps it local |
| TreeCast.StepAtHost | reference/conversd-saupp/host.c:126-157 | a step of a run is what `Relay` does at one host: the messages it sends are the CMSGs written, the users it reaches those who get the line |
| TreeCast.OpenMeans | reference/conversd-saupp/conversd.c:3531-3552 | a path is open exactly if every host on it forwards the channel and the last one has it |
| TreeCast.NeverBack | reference/conversd-saupp/conversd.c:4773-4774 | a message under way leads from a host that has handled it to one that has not |
| TreeCast.OncePerLink | reference/conversd-saupp/conversd.c:3531-3600 | in no run does a link carry the message twice, in either direction |
| TreeCast.AllOpen | reference/conversd-saupp/conversd.c:3512-3519 | if every host forwards the channel, every path carries it |
| TreeCast.RunKeeps | reference/conversd-saupp/conversd.c:3531-3600 | what every run keeps: messages under way lead into disjoint parts of the tree that have not seen it, and are on their way to everybody reachable |
| TreeCast.LinkDivides | reference/conversd-saupp/host.c:126-157 | a link divides the hosts into those beyond one end and those beyond the other |
| TreeCast.SendsLinked | reference/conversd-saupp/conversd.c:3531-3552 | a host sends to its neighbours only, and not back over the link the message came from |
| SignOn.RunKeeps | reference/conversd-saupp/host.c:2264-2430 | over every run in which users come and go and lines keep their order on each link, every entry of every table is true, lines lead away from the user's host only, both ends of a link will agree on every user once its lines are heard, and no link is taken for a loop |
| SignOn.NoLoop | reference/conversd-saupp/host.c:1783-1841 | in a tree the loop check never strikes |
| SignOn.PassedAway | reference/conversd-saupp/conversd.c:2744-2780 | passing a line on to all neighbours but the one it came from sends it exactly over the links that lead away from the user's host |
| SignOn.TablesBecomeTruthful | reference/conversd-saupp/host.c:1907-1934 | whenever nothing is under way every host knows exactly the users who are there, by the true next hop: the truthful tables message runs go by |
| SignOn.SignedOnAreReached | reference/conversd-saupp/host.c:126-157 | from sign-on to delivery: after any coming and going has spread, a message on a channel all hosts forward reaches every other user on it exactly once and nobody else |
| FloodLimiter.RateBound | reference/conversd-saupp/noflood.c:473-504 | over every run of a record, any two messages let through, directly or from the queue, are at least (j - i) * RateLimitLine - RateLimitMAX apart |
| FloodLimiter.QueueOrder | reference/conversd-saupp/noflood.c:493-563 | over every run, delivered then queued messages are a subsequence of the arrivals in order without duplicates, the length counter is the sum of the queued texts, zero exactly when nothing is queued, and at most FLOODSIZE with bans on |
| FloodLimiter.Treated | reference/conversd-saupp/noflood.c:473-563 | a message goes through at once exactly if its sender is not banned, nothing is waiting and the deadline is at most RateLimitMAX ahead; otherwise it waits behind the others unless it is empty, banned or overfills the queue |
| FloodLimiter.DrainServes | reference/conversd-saupp/noflood.c:595-658 | a delivery takes messages from the head of the queue, lets through exactly those whose sender may still send them, in order, and stops only at an empty queue or a deadline too far ahead; it takes at least one if the deadline allows |
| FloodLimiter.FindMeaning | reference/conversd-saupp/noflood.c:619-639 | a message may still be sent exactly if a login of its sender is there, and on the channel unless it is a private one |
| FloodLimiter.PacedStep | reference/conversd-saupp/noflood.c:337-344 | every event, merging a record on login included, keeps the deadline ahead of all that went through |
| FloodLimiter.OrderlyStep | reference/conversd-saupp/noflood.c:581-591 | every event keeps order and count of the queue |
| FloodLimiter.UserRecord.UpdateRateLimit | reference/conversd-saupp/noflood.c:427-446 | the deadline moves by the charge of the text |
| FloodLimiter.UserRecord.CheckMsgFlood | reference/conversd-saupp/noflood.c:473-504 | with the limiter off, or from the daemon itself, a message passes uncounted; any other is a step of the abstract record, and it is blocked exactly if nothing was let through |
| FloodLimiter.UserRecord.AddToDelayQueue | reference/conversd-saupp/noflood.c:508-563 | the message goes to the end of the queue, or the queue overflows and the user is banned, as `Enqueue` says |
| FloodLimiter.UserRecord.FreeDelayQueue | reference/conversd-saupp/noflood.c:581-591 | the queue is empty and its length 0 |
| FloodLimiter.UserRecord.SendDelayedMessages | reference/conversd-saupp/noflood.c:595-658 | the loop over the queue is the periodic step of the abstract record |
| FloodLimiter.UserRecord.FindSession | reference/conversd-saupp/noflood.c:619-639 | the first session that may still send the message |
| Framing.ShortLinesAgree | reference/conversd-saupp/conversd.c:5655-5724 | with lines shorter than MAX_MTU - 5, every split of a stream into reads gives the same lines |
| Framing.ChunkingIrrelevant | reference/conversd-saupp/conversd.c:5655-5724 | so it does for every robust stream, from any state of the buffer |
| Framing.ExactCondition | reference/conversd-saupp/conversd.c:5655-5724 | for streams of any length: what has been handed over at every moment is the same for all splits exactly if the stream is robust |
| Framing.OneReadCondition | reference/conversd-saupp/conversd.c:5655-5724 | for a stream that fits one read the same holds of the lines at its end alone |
| Framing.LinesComeOut | reference/conversd-saupp/conversd.c:5655-5724 | for every robust stream that closes nothing, however it is cut into reads, the lines handed over are, by position in the stream and in order, exactly its non-empty stretches between CR or LF, cut also before a slash and byte 0377 in a line of more than two bytes; none is left out, and the rest is the line begun |
| Framing.OverlongLine | reference/conversd-saupp/conversd.c:5710-5723 | a line too long for the buffer is never robust: reads of one byte give more lines than one read |
| Framing.ReadSplit | reference/conversd-saupp/conversd.c:5655-5724 | a robust stream may be cut anywhere |
| Framing.HostLink.Receive | reference/conversd-saupp/conversd.c:5655-5724 | a read, with the buffer shifted in place after each line, is the abstract `Read`, mid-line split at a slash and 0377 included; which lines that yields is `LinesComeOut` |
| Framing.HostLink.ShiftDown | reference/conversd-saupp/conversd.c:5699-5706 | the in-place shift moves the rest of the queue to its front |
| Huffman.RoundTrip | reference/conversd-saupp/compression.c:5-135 | for any tables that agree and any source of 1 to 255 bytes the frame is at most one byte longer, decodes to the source whatever byte follows it, and has header 255 exactly in the copy form |
| Huffman.FramesDiffer | reference/conversd-saupp/compression.c:5-63 | different sources have different frames |
| Huffman.EncodeStatic | reference/conversd-saupp/compression.c:5-63 | the bit loop writes the frame of the source, or fails without touching the buffer exactly on a null pointer or too long a source |
| Huffman.EncodeBitwise | reference/conversd-saupp/compression.c:23-50 | the bits written are those of the code words in order; it gives up exactly when coding does not shorten |
| Huffman.PutBit | reference/conversd-saupp/compression.c:33-47 | one more bit of the code stands in the buffer and the rest of its byte is clear |
| Huffman.DecodeStatic | reference/conversd-saupp/compression.c:71-135 | the decoder computes `Decode`, or reports failure exactly where that has no value |
| Huffman.DecodeByte | reference/conversd-saupp/compression.c:100-130 | a leaf is used without consuming the bit that was looked at |
| HuffmanAgreement.ConversdAgrees | reference/conversd-saupp/compression.h:16-214 | conversd's two tables agree: the tree is proper and every code word leads to its byte |
| HuffmanAgreement.TablesAgree | reference/conversd-saupp/compression.h:16-214 | the same for a single byte, on the 16-bit words of the table |
| HuffmanAgreement.ConversdRoundTrip | reference/conversd-saupp/compression.c:5-135 | the round trip with conversd's own tables |
| Md5Block.Transform | reference/conversd-saupp/md5.c:188-290 | the straight-line code computes the 64 steps of section 3.4 of RFC 1321, each with its word, shift and constant, for any four mixing functions |
| Md5.Context.Update | reference/conversd-saupp/md5.c:113-144 | the context has absorbed the message so far plus the new bytes, its two words the bit count modulo 2^64 |
| Md5.Context.Final | reference/conversd-saupp/md5.c:148-184 | the digest is that of the whole message: the fold of the block transform over the message padded as in sections 3.1 to 3.5 of RFC 1321 |
| Md5.CountOn | reference/conversd-saupp/md5.c:122-126 | the carry test and the three high bits make the two-word count right |
| Md5.LastBlock | reference/conversd-saupp/md5.c:166-172 | the last block with the count words completes the fold |
| Md5.HashPieces | reference/conversd-saupp/md5.c:113-184 | every way of splitting a message into updates gives its digest |
| Md5.HashMd5 | reference/conversd-saupp/md5.c:113-290 | the same with conversd's own mixing functions |
| Md5.AbsorbBlockOf | reference/conversd-saupp/md5.c:188-290 | the block function the streaming is proved for is what the straight-line code computes |
| Md5.CalcMd5Pw | reference/conversd-saupp/md5_ampr.c:12-36 | the result is the MD5 digest of the first at most 10 characters of the challenge followed by the password |
| Enumeration.Roster.Next | reference/conversd-saupp/user.c:1992-2043 | a call hands out the first connection not handed out yet, by name, host and then position, and null exactly when none is left |
| Enumeration.Roster.Enumerate | reference/conversd-saupp/user.c:1992-2043 | a start and calls until null yield every connection exactly once, in order |
| Enumeration.Roster.CountUsers | reference/conversd-saupp/conversd.c:1624-1644 | the count is that of entries that are first of their name and host and users; it is the number of different users exactly if none is shadowed |
| Enumeration.CountExact | reference/conversd-saupp/conversd.c:1624-1644 | the count never exceeds the number of different users, and when it is equal |
| Enumeration.HiddenByTwin | reference/conversd-saupp/conversd.c:1624-1644 | it may be less: a closed entry in front of its live twin hides the user |
| Enumeration.NoTwins | reference/conversd-saupp/conversd.c:1624-1644 | without entries of another kind that share a user's name and host nobody is shadowed |
| Enumeration.LastOfKey | reference/conversd-saupp/conversd.c:1631-1640 | looking at the next entry only tells the first of each name and host |
| MapTraversal.Atlas.PrintBehind | reference/conversd-saupp/user.c:6704-6739 | for every neighbour relation, cyclic ones included, the recursion ends and prints exactly the open destinations whose chain of neighbours leads through open ones to the start, each once |
| MapTraversal.Atlas.DrawBehind | reference/conversd-saupp/user.c:6830-6832 | the same from a root that is locked first and is never printed itself |
| MapTraversal.NoneMissed | reference/conversd-saupp/user.c:6704-6739 | nothing that leads to the root is missed |
| History.ChannelHistory.Expire | reference/conversd-saupp/conversd.c:3396-3436 | the history stays a suffix of what was added since the last clear, is `Left` of the old one, and holds no line that is too old |
| History.ChannelHistory.Add | reference/conversd-saupp/conversd.c:3456-3481 | so it does after an add, with the new line last and no old line before it, as long as the clock does not run backwards |
| History.LeftLatest | reference/conversd-saupp/conversd.c:3412-3435 | a pass leaves the latest lines, no old one if the clock did not run backwards, and not more than its limit |
| History.NothingWasted | reference/conversd-saupp/conversd.c:3412-3435 | no line is dropped without need: it was too old, or as many lines as the limit allows are left after it |
| History.TooOldInMinutes | reference/conversd-saupp/conversd.c:3425 | the age test is the C division by 60 |
| History.BoundExact | reference/conversd-saupp/conversd.c:3471 | for every setting of both limits: at most `history_lines` lines after every add exactly if that is at least 2 |
| Modes.Apply | src/Convers.Core/ChannelModes.cs:22-66 | the loop computes the library's reading of an options string |
| Modes.Channel.ModeCommand | reference/conversd-saupp/user.c:2772-2881 | the loop computes the daemon's reading, up to the first `o` |
| Modes.ModeMeaning | src/Convers.Core/ChannelModes.cs:22-66 | each mode ends as the sign in force at the last effective occurrence of its letter, or as it was, in both dialects |
| Modes.DialectsAgree | reference/conversd-saupp/user.c:2772-2881 | both dialects give the same modes except on channel 0, and there exactly if no mode that was set, other than the topic lock, is taken away |
| Modes.DialectsDiffer | reference/conversd-saupp/user.c:2772-2881 | they do differ: `-s` on a secret channel 0 |
| Modes.ZeroRuns | reference/conversd-saupp/user.c:2774-2778 | but not from an empty start: after any number of lines both have the same modes, on channel 0 too |
| Modes.ClearedMeaning | reference/conversd-saupp/user.c:2774-2778 | what an options string takes away on channel 0 is what stands under a minus |
| Modes.ZeroWithinLock | src/Convers.Core/ChannelModes.cs:57-61 | on channel 0, from a state within the topic lock, both stay there and agree |
| Modes.AbsoluteForm | reference/conversd-saupp/conversd.c:1896 | `-sptiml+FLAGS` yields FLAGS from any start on any other channel, in both dialects |
| Modes.WireForm | src/Convers.Core/ChannelModes.cs:74-108 | the library's own form only adds, and yields the sender's modes exactly if nothing else was set |
| Topics.Store.UpsertTopic | src/Convers.Core/ConversStore.cs:209-244 | the write takes effect exactly if no topic of the same or a later second is stored, and changes only its channel |
| Topics.NewestWins | src/Convers.Core/ConversStore.cs:209-244 | after any calls on an empty table the stored topic is the earliest among those with the greatest second |
| Topics.NeverOlder | src/Convers.Core/ConversStore.cs:209-244 | the stored second never decreases |
| Topics.Converges | src/Convers.Core/ConversStore.cs:209-244 | with different seconds per channel, any reordering of the calls ends in the same table |

## Left out

- Sockets, select, files, passwords, nicknames, logging and all text for users, the IRC surface included; whether a caller is allowed, how much time has passed and which entries are outdated are parameters.
- What conversd writes to links other than DEST and CMSG lines; the state behind USER, SQUIT and the other lines is modelled, the lines are not.
- Channels in the link and presence machine: whether a sign-on repeats a known one, and which session a part refers to, are parameters; changing the channel or personal text of a user does not touch what the machine is about.
- A part whose text names a broken link acts as a SQUIT; it is that event here.
- The operator's command that deletes all links at once; the socket groups of a link, whose limit is a parameter.
- The retry times of links and the delays between primary and backup links.
- The rtt tolerance of route updates: every branch before it already decides to send.
- The order in which users are closed together, and freed; it shows only in lines to users.
- Modes.Channel.ModeCommand: the names after an `o` and the operators they make are not modelled, and letters other than ASCII are not folded.
- Md5.Context.Update: absorbs a block by calling a function of the block, not `Transform` itself; `AbsorbBlockOf` says that this is the same.
- Huffman.EncodeStatic: bytes are 0 to 255; a table index from a signed character is outside the model, and so is a source of no bytes.
- TreeCast.ExactlyOnce: takes tables that name the true next hop at every host, as spreading sign-ons makes them (`TablesBecomeTruthful`); the flood limiter, messages that are dropped (`Passes`), the special text of CQ calls, hosts that are lost meanwhile, and the check of sign-ons against the routing table are not part of the network runs.
- Topics: SQLite itself; the table is a map.
- Cron jobs, `update_dests_behind`, charset conversion, configuration parsing, console and help.
