# Zyre in Dafny

Zyre lets nodes on a local network find each other, form groups, send messages
to peers and groups, and elect a leader in a group. This project models the
parts of it where nodes depend on each other, and proves what they achieve
together:

- **Leader election.** The ELECT and LEADER branches of the node's message
  handler form an echo wave with extinction. One epoch is modelled as any number
  of members that list each other, FIFO channels between every two of them and
  arbitrary interleaving. `ElectionRules` holds a member's reactions,
  `ElectionNetwork` the epoch, `ElectionInvariant` and the five modules after it
  the invariant, and `ElectionRuns`, `ElectionCost`, `ElectionBounds` and
  `ElectionProgress` the results over all runs.
- **The node.** `NodeRules` says, as functions on values, what every command of
  the application and every received message does to a node's peer table, group
  table, own groups, status, events and mailboxes. `NodeObjects` (with
  `PeerObjects` and `GroupObjects`) is the node as the C code has it, objects
  with fields that handlers update in place; `Node.Perform` is proved to compute
  exactly `NodeRules.Act`. For every action `NodeMail` proves exactly what each
  peer is sent, `NodeNews` what the application is told, and `NodeTables` what
  becomes of each group, of the peers known, of the own groups and of the status.
  `NodeElections` proves that one such node does what the
  rules of the epoch say, down to the packets on its wire, `NodeNetwork` and
  `NodeNetworkRuns` that any number of them, joined by FIFO channels, take the
  runs of the epoch. `NodeNewcomer` starts the election from what makes nodes
  start it, the JOIN of the last member, and `NodeAssembly` reaches the states
  these runs begin with from nodes that know nobody. `NodeRestarts` proves which
  groups restart their election when a peer comes or goes.
- **Sessions and group replicas.** `NodeSessions` proves that, seen from one
  peer, the whole node is a small session machine. `NodeRuns` derives, for every
  run, that the tables stay consistent and when the application's events make
  sense. `NodeStreams` proves what a reader of everything a node sends to a peer
  learns of its groups and status. `Replica` puts a sender, a lossy FIFO channel
  and a receiver together, `ReplicaRuns` proves for all runs exactly when the
  receiver's copy is the sender's group list and when its status assertions
  hold, and `ReplicaLimits` has runs in which they do not.
- **The wire.** `ZreGrammar` is the frame grammar of the ZRE message kinds
  (written down in `src/zre_msg.h`); `ZreRoundTrip` and `ZreReader` hold the
  laws of encoder and decoder, `ZreOctets` says which octet stands where in a
  frame and when a frame is read or refused, `ZreTexts` what decoded messages are
  like;
  `ZreCodec` is the buffer with its needle, proved
  against the grammar; `ZreFraming` is the multipart framing, `Hex` the
  hexadecimal macros. `NodeTexts` and `NodeWire` connect the codec to the packets
  that nodes send.

Where the code and its own comments disagree, the code is followed:

- `zre_msg_recv` is documented to return -2 for a malformed message, but a frame
  that is too short returns 0 (`src/zre_msg.c:70-76`, `1088-1090`). The decoder
  here has a third outcome, `Underflow`.
- `zre_msg_send` always returns 0, so the disconnection on EAGAIN in
  `src/zyre_peer.c:265-272` is never taken; a lost message shows only as a gap in
  the sequence numbers.
- A HELLO starts an election in every listed group that the node contests, a JOIN
  only in those it is in as well (`src/zyre_node.c:1153`, `1207-1208`).
- `isLeader` is never set, so an election's outcome is the LEADER event, not
  `zyre_election_won`.

Some properties one might expect hold only under a condition. Each time the exact
condition is proved, and a run or an input outside it is given:

- The events about a peer make sense - it speaks only between ENTER and EXIT, and
  two ENTERs have an EXIT between them - exactly as long as no HELLO takes up a
  peer that is not ready while it is still between ENTER and EXIT
  (`NodeRuns.EventsMakeSense`). That comes about when another peer has claimed the
  endpoint of a ready one and cut it off (`NodeRuns.CutOffBreaksDiscipline`, and
  `ReplicaLimits.CutOffMisleads` is such a run); a peer that was cut off and
  expires before its next HELLO does no harm (`NodeRuns.ExpiryMendsCutOff`).
- The application is between ENTER and EXIT exactly while the peer is ready, in
  every state so far, exactly as long as no peer was cut off at all
  (`NodeRuns.Discipline`).
- A receiver processes a session without a gap exactly as long as no later packet
  is mistaken for the next one (`ReplicaRuns.PrefixDeliveryIff`). Its count of the
  sender's status stays right, and its status assertions quiet, exactly as long as
  no packet is so mistaken after a change of status was lost
  (`ReplicaRuns.StatusIff`); at that moment the assertion fires exactly if the
  packet is a JOIN or LEAVE (`ReplicaRuns.AssertionFiresIff`). Neither can happen
  while fewer than 65536 packets are lost in a row and no HELLO is lost that a
  later packet of its session survives (`ReplicaRuns.OrderlyRuns`). When such a
  HELLO is lost, a PING after it leaves a gap, the wrong status and the wrong
  groups (`ReplicaLimits.MistakenPingMisleads`), and a JOIN fires the assertion
  (`ReplicaLimits.LostHelloFiresAssertion`).
- The groups in which a receiver lists a sender are those that the sender told it
  exactly as long as no packet is mistaken after a change of groups was lost that
  the packet itself does not make good, and no HELLO takes up a sender that was cut
  off while it is still listed in a group that the HELLO does not name
  (`ReplicaRuns.GroupsIff`, `ReplicaLimits.CutOffListIff`). The second happens
  without any loss (`ReplicaLimits.CutOffMisleads`).
- And what a sender tells is its own groups exactly as long as it neither joins nor
  leaves a group with a name of more than 255 octets while the receiver's mailbox is
  open, for such a name is cut in JOIN and LEAVE but not in HELLO
  (`ReplicaRuns.ToldIff`, `ReplicaLimits.LongNameListedIff`,
  `ReplicaLimits.LongNameMisleads`).
- Together: a receiver lists a sender in the sender's own groups, as they stood
  at the last packet processed, exactly as long as no packet goes on with the
  session without leading from the groups at the one before it to those at its
  own, and no such HELLO revives old ones (`ReplicaRuns.PrimaryIff`). The mistaken
  PING, the cut-off and the long name all break it (`ReplicaLimits.MisledIsOutside`).
- The computed size of a HELLO frame is wrong exactly for a message without a
  header table that once had one (`ZreCodec.SizeIsExactIff`); two encodings in a
  row come to that (`ZreCodec.EncodeAdornedThenPlain`).
- Encoding a decoded frame again gives other octets exactly if a string held a
  zero octet (`ZreReader.ReEncodeIff`); a JOIN frame of nine octets does
  (`ZreReader.ZeroGroupIsLost`).

`dafny verify dfyconfig.toml` checks the whole project.

## Model

| member | source | states |
|---|---|---|
| CStrings.StrLessIff | src/zyre_election.c:77-82 | comparing octet by octet, as `strcmp` does, finds the first string lower if and only if the two agree up to a place where the first ends or goes on with the lower octet |
| CStrings.StrLessTransitive | src/zyre_election.c:77-82 | the order in which challengers are compared, `strcmp`, is transitive |
| CStrings.StrLessTotal | src/zyre_election.c:77-82 | of two different identities one is below the other |
| CStrings.RanksExist | src/zyre_election.c:77-82 | any finite set of identities can be numbered so that a lower number means just that, so some challenger is lowest |
| ElectionInvariant.InitInv | src/zyre_election.c:41-55 | the state before any start satisfies the invariant of the epoch |
| ElectionLeader.StartKeepsInv | src/zyre_node.c:1216-1227 | a member that starts a challenge keeps the invariant: father tree, one token per channel and wave, counters equal to distinct senders |
| ElectionElect.ElectKeepsInv | src/zyre_node.c:1282-1341 | receiving ELECT keeps the invariant, whatever the interleaving |
| ElectionLeader.LeaderKeepsInv | src/zyre_node.c:1343-1401 | receiving LEADER keeps the invariant |
| ElectionRuns.RunInv | src/zyre_node.c:1282-1401 | every state of every run of an epoch satisfies the invariant |
| ElectionRuns.Agreement | src/zyre_node.c:1369-1387 | in every run each member has at most one LEADER event, all of them name one node, and it is a contesting starter that no other starter is below |
| ElectionRuns.OneDecision | src/zyre_node.c:1317-1327 | in every run at most one LEADER decision is made, by one node |
| ElectionDecision.DecisionIsLowest | src/zyre_node.c:1287-1327 | a node whose own wave completes has an identity below every other challenger's |
| ElectionRuns.WaveCompleteness | src/zyre_node.c:1289-1334 | at the decision every member is in the decider's wave with a full ELECT count, and its chain of fathers ends at the decider |
| ElectionRuns.FatherToEchoTo | src/zyre_node.c:1326-1334 | a member whose wave is not its own always has a father, one of its neighbours, to echo to |
| ElectionCost.OneElectPerChannel | src/zyre_node.c:1296-1306 | in a whole run a member sends ELECT for one challenger to one neighbour at most once |
| ElectionCost.CawDecreases | src/zyre_election.c:77-102 | while an election lives, each step keeps its wave or replaces it by a strictly lower one |
| ElectionCost.CounterIsDistinctSenders | src/zyre_election.c:161-186 | `erec` is the number of distinct neighbours whose ELECT of the current wave was received, so it never passes the neighbour count |
| ElectionCost.OneCompletionPerWave | src/zyre_election.c:178-186 | the equality test on `erec` succeeds at most once for each member and wave |
| ElectionBounds.ElectBound | src/zyre_node.c:1298-1333 | with k starters among N members a run sends at most k*N*(N-1) ELECT messages |
| ElectionBounds.CountersCount | src/zyre_node.c:1298-1357 | the message counts of the history are the numbers of messages the steps of the run sent |
| ElectionBounds.StepsAreWork | src/zyre_node.c:1282-1401 | every step adds exactly one to a measure of starts and receptions |
| ElectionBounds.Termination | src/zyre_node.c:1282-1401 | no run is longer than k + k*N*(N-1) + N*(N-1) steps |
| ElectionProgress.Progress | src/zyre_node.c:1282-1401 | once somebody has started and nothing is in flight, every member has told its application of the same one leader and dropped its election: no interleaving deadlocks |
| ElectionProgress.LeaderTotal | src/zyre_node.c:1323-1357 | a complete epoch has sent exactly N*(N-1) LEADER messages |
| ElectionProgress.LeaderCoherent | src/zyre_node.c:1346-1357 | a LEADER in flight finds at its receiver an election whose wave is the leader it names, so relaying the wave relays the right leader and the warning branch is dead |
| ElectionProgress.NothingAfterClose | src/zyre_group.c:143-151 | nothing is in flight to a member that has closed its election |
| ElectionProgress.ClosedForever | src/zyre_group.c:143-151 | a closed election is never made again by a later message of the epoch |
| ElectionProgress.StrcmpEpoch | src/zyre.c:324-328 | any members and any contesting subset make an epoch to which the results apply, whose ranks are the order of their octets |
| NodeElections.ElectHandled | src/zyre_node.c:1282-1341 | a node that lists and is connected to the members and takes ELECT from one of them has the epoch rule's record, announces nothing, and puts exactly the rule's tokens on the wire to each member, numbered on from what it sent before |
| NodeElections.LeaderHandled | src/zyre_node.c:1343-1401 | the same for LEADER, with the rule's announcement and with the leader noted in the group |
| NodeElections.StartHandled | src/zyre_node.c:1216-1227 | the same for starting a challenge, which forgets the leader |
| NodeNetwork.ContendsReflects | src/zyre_node.c:1216-1227 | a node of a cluster that starts a challenge while unaware of an election takes the epoch's start: all nodes, announcements and packets in flight are as the epoch has them |
| NodeNetwork.TakesReflects | src/zyre_node.c:1115-1127 | so are they after a node takes the next packet of a channel, which it accepts and handles as the epoch's delivery |
| NodeNetworkRuns.Refines | src/zyre_node.c:1079-1401 | every run of nodes that list each other, exchange packets over FIFO channels and pass each through the ready check, sequence check and handler, is a run of the epoch with the same challengers, the same announcements and the same tokens in flight |
| NodeNetworkRuns.NodesAgree | src/zyre_node.c:1282-1401 | in every such run no status assertion fires, each node announces at most one leader, all announce the same, it is the lowest in `strcmp` order of the nodes that contended, and a node that has announced another has it as its group's leader |
| NodeNetworkRuns.NodesFinish | src/zyre_node.c:1282-1401 | once a node has contended and everything sent has been taken, every node has announced the same one leader, its group names it and its election is gone |
| NodeNetworkRuns.NodesStop | src/zyre_node.c:1282-1401 | with k contenders among N nodes no run of them is longer than k + k*N*(N-1) + N*(N-1) moves |
| NodeNetworkRuns.NodesGoOn | src/zyre_node.c:1079-1401 | and until everything sent has been taken some node can take a packet |
| NodeNewcomer.JoinStarts | src/zyre_node.c:1204-1230 | a node in the group that takes the JOIN it counts on lists the peer and starts a challenge exactly if it contests the group |
| NodeNewcomer.Foresees | src/zyre_node.c:1079-1401 | where every node takes the last member's JOIN before any other packet, each run of the nodes, with that JOIN on its way, stands for a run of nodes that list each other already: same announcements, same packets, and those have started that contest and have taken the JOIN |
| NodeNewcomer.NodesElect | src/zyre_node.c:1204-1401 | so at any time all announcements of such a run name one node, the lowest in `strcmp` order of those that contest and have taken the JOIN |
| NodeNewcomer.LowestIsElected | src/zyre_node.c:1204-1401 | and when everything sent has been taken every node has announced the lowest contesting member other than the last, names it in its group and has dropped its election |
| NodeNewcomer.GatheringGoesOn | src/zyre_node.c:1079-1401 | until then some node can take a packet, and the JOIN wherever it is still awaited |
| NodeNewcomer.GatheringStops | src/zyre_node.c:1204-1401 | and it comes about, for with k that have started among N nodes no such run is longer than k + k*N*(N-1) + N*(N-1) + N packets |
| NodeAssembly.Meet | src/zyre_node.c:526-885 | from new nodes, any that are to join the group early do so, each finds every other, takes its HELLO, and those that contest say so: a run of the nodes' own actions after which each lists exactly the early ones of the others |
| NodeAssembly.Assembles | src/zyre_node.c:1129-1177 | so any 2 to 2^32 identities, with any of them contesting, are reached by such a run as nodes that list each other in a group, with nothing under way and no election begun |
| NodeAssembly.GatheringIsReached | src/zyre_node.c:683-697 | and so are nodes that await the JOIN of any one of them as the last member |
| GroupObjects.Election.Support | src/zyre_election.c:77-109 | a challenger below the wave, octet by octet, and only that, or any where there is none, resets the record and becomes its wave with the sender as father |
| GroupObjects.Election.IncrementErec | src/zyre_election.c:161-166 | the counter steps as a 32-bit unsigned number, nothing else changes |
| GroupObjects.Election.CountLeader | src/zyre_election.c:169-174 | the LEADER counter steps and the leader is noted |
| GroupObjects.Group.Join | src/zyre_group.c:83-89 | a peer is listed once however often it joins, and its status steps every time |
| GroupObjects.Group.Leave | src/zyre_group.c:96-102 | a peer is no longer listed, and its status steps |
| GroupObjects.Group.RequireElection | src/zyre_group.c:143-151 | an existing election is kept, else a new one is made |
| GroupObjects.Group.StartElection | src/zyre_node.c:1215-1223 | any election and leader are dropped and a fresh record with the given wave takes their place |
| PeerObjects.Peer.Connect | src/zyre_peer.c:125-223 | a connection that succeeds makes the peer connected and not ready, one that fails leaves it as it was |
| PeerObjects.Peer.Disconnect | src/zyre_peer.c:230-243 | a connected peer loses endpoint, connection and readiness, another is left alone |
| PeerObjects.Peer.Send | src/zyre_peer.c:249-281 | a connected peer's message is put on the wire with the next 16-bit number; a peer not connected gets nothing |
| PeerObjects.Peer.MessagesLost | src/zyre_peer.c:478-508 | a loss is reported exactly if the number is not the one that follows, a HELLO always being number 1 |
| PeerObjects.SendEach | src/zyre_group.c:118-128 | sending to a table of peers puts one correctly numbered copy on the wire for each connected peer, in whatever order the table gives |
| NodeObjects.Node.constructor | src/zyre_node.c:108-150 | a new node knows no peer and no group |
| NodeObjects.Node.StartRecord | src/zyre_node.c:1218-1225 | a new election with our own wave takes the place of any other and the leader is forgotten |
| NodeObjects.Node.Challenge | src/zyre_node.c:1216-1227 | starting a challenge records our own wave and sends ELECT to every listed peer |
| NodeObjects.Node.RestartGroup | src/zyre_node.c:940-984 | what losing a peer does to the election of one group we contest |
| NodeObjects.Node.PurgeEndpoint | src/zyre_node.c:807-833 | every peer on the endpoint is disconnected and stays in the table |
| NodeObjects.Node.FindPeer | src/zyre_node.c:819-889 | an unknown peer is purged for, added, connected and greeted with HELLO, or leaves no trace if the connection fails |
| NodeObjects.Node.LeaveEverywhere | src/zyre_node.c:894-901 | a peer is removed from every group, and no other peer or group field changes |
| NodeObjects.Node.DropPeer | src/zyre_node.c:923-1000 | removing a peer reports EXIT, restarts the elections that need it and takes the peer out of every group and the table |
| NodeObjects.Node.JoinPeer | src/zyre_node.c:1015-1032 | a peer's join lists it in the group, found or made, steps its status and reports JOIN |
| NodeObjects.Node.LeavePeer | src/zyre_node.c:1034-1051 | a peer's leave is the same in reverse |
| NodeObjects.Node.HandleHello | src/zyre_node.c:1129-1177 | HELLO reports ENTER, joins the listed groups in order with an election where we contest, and takes the status last |
| NodeObjects.Node.HandleJoin | src/zyre_node.c:1204-1230 | JOIN joins the peer, aborts if its status is not the one counted, and starts an election only in our own contested groups |
| NodeObjects.Node.HandleLeave | src/zyre_node.c:1232-1280 | LEAVE removes the peer, aborts on a wrong status, and replaces a leader that left |
| NodeObjects.Node.HandleElect | src/zyre_node.c:1282-1341 | the handler, with its separate steps of support, forwarding, counting and echoing, computes the election rule for ELECT |
| NodeObjects.Node.HandleLeader | src/zyre_node.c:1343-1401 | the handler, with its separate steps of relaying, counting and closing, computes the election rule for LEADER |
| NodeSteps.ElectInSteps | src/zyre_node.c:1287-1337 | changing the record before or after each message of the handler comes to the same state |
| NodeSteps.LeaderInSteps | src/zyre_node.c:1349-1396 | the same for the LEADER handler |
| NodeObjects.Node.GreetPeer | src/zyre_node.c:1083-1114 | a HELLO replaces a ready peer, is ignored from our own endpoint, and otherwise leaves the peer ready if it could be connected |
| NodeObjects.Node.ReceivePacket | src/zyre_node.c:1079-1419 | receiving a message takes the node's value where the rules say, through readiness, sequence check and dispatch |
| NodeObjects.Node.WhisperTo | src/zyre_node.c:653-667 | WHISPER reaches the one peer if it is known and connected |
| NodeObjects.Node.ShoutTo | src/zyre_node.c:669-681 | SHOUT reaches the connected members of a known group |
| NodeObjects.Node.JoinGroup | src/zyre_node.c:683-703 | joining a new group steps the status before JOIN goes to every peer; joining one twice does nothing |
| NodeObjects.Node.QuitGroup | src/zyre_node.c:705-725 | leaving one of our groups steps the status before LEAVE goes to every peer |
| NodeObjects.Node.SetContest | src/zyre_node.c:526-531 | contesting a group finds or makes it and changes nothing else |
| NodeObjects.Node.Perform | src/zyre_node.c:456-1484 | whatever happens to the node's objects, with members of groups and of the peer table being the same objects, their value takes the step of the value model |
| NodeSessions.ActMovesSession | src/zyre_node.c:1079-1419 | seen from any one peer, every action of the node is one step of the session machine, and the status assertion fires exactly when the machine says |
| NodeSessions.RemoveMoves | src/zyre_node.c:923-1000 | removing a peer ends its session and leaves every other session alone |
| NodeSessions.JoinAllMoves | src/zyre_node.c:1148-1174 | joining the groups of a HELLO adds them all to the peer's list and touches no other peer |
| NodeSessions.RequireMoves | src/zyre_node.c:819-889 | finding a peer makes its session if the connection succeeds, and purges exactly the peers on its endpoint |
| NodeSessions.ReceiveMoves | src/zyre_node.c:1079-1419 | a message moves its sender's session as the machine says and at most purges other sessions |
| NodeRestarts.LossRestarts | src/zyre_node.c:938-986 | removing a peer changes exactly the groups that are ours, contested, and led by the peer or in an unfinished election: they forget the leader and hold a fresh election, or none if only that peer was left; and every group loses the peer |
| NodeRestarts.LeaderForgottenIff | src/zyre_node.c:940-967 | a group stops naming a removed peer as its leader if and only if it is one of ours and we contest it |
| NodeRestarts.LossAnnounces | src/zyre_node.c:954-965 | the node announces itself exactly once in each group that calls for an election and had no other peer, and in no other |
| NodeRestarts.LossChallenges | src/zyre_node.c:966-981 | losing a peer adds to what is sent to each peer exactly one ELECT with our identity, in the order of our groups, for each of them that calls for an election, had other members and lists that connected peer, the removed one included |
| NodeRestarts.HelloRestarts | src/zyre_node.c:1148-1174 | HELLO leaves a fresh election with our own wave in exactly the listed groups that we contest, whether or not we are in them; what it sends is `NodeMail.HelloMails` |
| NodeMail.ShoutMails | src/zyre_node.c:669-681 | SHOUT adds one message with the group and the content to the mail of each connected member of the group, and nothing to anybody else's |
| NodeMail.WhisperMails | src/zyre_node.c:653-667 | WHISPER adds one message with its content to the mail of the one peer, if it is connected, and nothing else |
| NodeMail.HelloMails | src/zyre_node.c:1155-1171 | a HELLO adds to each connected peer's mail, for each listed group in turn that we contest, one ELECT with our identity if the peer is listed there by then, the sender of the HELLO included |
| NodeMail.JoinMails | src/zyre_node.c:1204-1230 | a JOIN that passes the status assertion, in a group of ours that we contest, adds one such ELECT to the mail of each connected peer then listed, its sender included, and otherwise nothing |
| NodeMail.LeaveMails | src/zyre_node.c:1232-1280 | so does such a LEAVE of the group's leader, for each connected peer that is left |
| NodeMail.ElectMails | src/zyre_node.c:1282-1341 | an ELECT is passed on to all members but its sender if it beats our wave, and the one that completes the wave is answered with LEADER to all if it is our own and with ELECT to the father otherwise; nobody gets anything else |
| NodeMail.LeaderMails | src/zyre_node.c:1343-1357 | the first LEADER of another node's wave is told to the members, with the wave that we are in as leader, and no other LEADER is |
| NodeMail.ActMails | src/zyre_node.c:456-1484 | whatever happens to a node, PING, HELLO and a loss included, exactly these messages in this order are added to each peer's mail, and none once it has aborted |
| NodeNews.LossTells | src/zyre_node.c:923-967 | removing a peer tells EXIT and then, for each of our groups in turn that called for an election and held nobody else, once that we lead it |
| NodeNews.ProcessTells | src/zyre_node.c:1129-1401 | an accepted message tells exactly: ENTER and a JOIN for each listed group for HELLO; one event with what it carries for WHISPER, SHOUT, JOIN and LEAVE; LEADER when the last LEADER names ourselves or a known peer, or when a leader leaves us alone in a group of ours that we contest |
| NodeNews.ActTells | src/zyre_node.c:456-1484 | whatever happens to a node, exactly these events in this order are added to its list, and none once it has aborted |
| NodeTables.ActMovesGroup | src/zyre_node.c:526-1401 | whatever happens to a node, exactly what becomes of the members, contest flag, leader and election of each group: only SET CONTEST contests one, ELECT and LEADER count as the record says, and losses, HELLO, JOIN and LEAVE restart it as stated above |
| NodeTables.ActMovesKeys | src/zyre_node.c:807-1128 | whatever happens to a node, exactly which peers it then knows: discovery and HELLO add one if and only if it can be connected to, and expiry, a loss, a HELLO of a ready peer and a gossip GOODBYE take one out |
| NodeTables.ActMovesOwn | src/zyre_node.c:683-725 | the node's own groups change only by its own commands, a new one coming last and one that is left going out, and its status steps by one in eight bits each time and never otherwise |
| NodeTables.OwnGroupsDistinct | src/zyre_node.c:683-697 | in every reachable state no own group is listed twice |
| NodeTables.StatusCountsChanges | src/zyre_node.c:683-725 | in every reachable state the status is the number of changes of own groups so far, modulo 256 |
| NodeRuns.MembersAreKnown | src/zyre_node.c:1298-1304 | in every reachable state each member of each group is in the peer table, so forwarding finds every receiver |
| NodeRuns.StepDiscipline | src/zyre_node.c:807-815 | an action keeps ENTER and EXIT in step with a peer's readiness if and only if it does not cut the ready peer off |
| NodeRuns.Discipline | src/zyre_node.c:807-815 | up to any state of any run the application was between ENTER and EXIT exactly while the peer was ready if and only if no action so far cut the peer off |
| NodeRuns.StepConfuses | src/zyre_node.c:1082-1142 | one action breaks the order of a peer's events if and only if it is a HELLO that takes up the peer, known and not ready, while the application is between ENTER and EXIT |
| NodeRuns.EventsMakeSense | src/zyre_node.c:1082-1195 | after any run, every JOIN, LEAVE, WHISPER and SHOUT event follows an ENTER with no EXIT in between and two ENTERs have an EXIT between them if and only if no action so far was such a HELLO |
| NodeRuns.UncutEventsMakeSense | src/zyre_node.c:807-815 | in particular they do after every run that never cuts the peer off |
| NodeRuns.PhaseMeaning | src/zyre_node.c:928-930 | the position that the proofs follow is broken if and only if the list of events itself violates that order, and otherwise inside if and only if an ENTER is open at the end of the list |
| NodeRuns.CutOffBreaksDiscipline | src/zyre_node.c:807-815 | after any cut-off, a HELLO of the peer leaves a list of events in which two ENTERs have no EXIT between them |
| NodeRuns.ExpiryMendsCutOff | src/zyre_node.c:923-930 | if the peer expires before that, its events make sense and the application is in step with it again |
| NodeRuns.DistinctEndpointsNeverCutOff | src/zyre_node.c:828-833 | where no two peers share an endpoint no run cuts a peer off, and every known peer is connected to its own endpoint |
| NodeStreams.ActAdvances | src/zyre_node.c:683-725 | whatever a node does, its stream to a peer only grows, stays numbered by session and tells its status; and a reader who knows the node's groups goes on knowing them, at each new packet, if and only if the node does not join or leave a group with a name over 255 octets while the mailbox is open |
| NodeStreams.PostHello | src/zyre_node.c:857-884 | the HELLO of a new mailbox tells the groups and status as they are |
| NodeStreams.PostJoin | src/zyre_node.c:687-697 | a JOIN keeps the stream in order with the stepped status, and keeps a reader's knowledge of the groups right if and only if the mailbox is closed or the name has at most 255 octets |
| NodeStreams.PostLeave | src/zyre_node.c:709-720 | the same for LEAVE, although the group is taken off the list only after sending |
| Replica.StartIsHello | src/zyre_peer.c:249-258 | a session starts with a HELLO and every packet carries its position in the session, modulo 65536 |
| Replica.FollowsIff | src/zyre_peer.c:478-508 | a packet carries the number that follows the last one processed if and only if it is the next packet or aliases it |
| Replica.PacketStatusIff | src/zyre_node.c:1121-1234 | one packet fires the status assertion if and only if it is a JOIN or LEAVE mistaken for the next packet after a change of status was lost, and leaves a wrong status counted if and only if it is any packet so mistaken |
| Replica.PacketGroupsIff | src/zyre_node.c:1121-1251 | one packet leaves the listed groups other than those told if and only if it is mistaken for the next one after a change of groups was lost that it does not itself settle, or is a HELLO that takes up a cut-off sender listed elsewhere |
| Replica.PacketGaplessIff | src/zyre_node.c:1115-1127 | one packet leaves a gap in what was processed of the session if and only if it is mistaken for the next one |
| Replica.PacketOwnIff | src/zyre_node.c:1121-1251 | one packet leaves the sender listed in other groups than its own were at that packet if and only if it goes on with the session without leading from its groups at the last arrival to those, or is a HELLO that takes up a cut-off sender listed elsewhere |
| Replica.StepIsSound | src/zyre_node.c:1079-1419 | whatever sender and receiver do, until the receiver's assertion fires, the sender serves the receiver in order and the receiver waits for the number after the last arrival of a sender that is ready |
| ReplicaRuns.PrefixDeliveryIff | src/zyre_node.c:1115-1127 | a run delivers without gaps up to any state if and only if no step before it has a later packet mistaken for the next one and passed |
| ReplicaRuns.GroupsIff | src/zyre_node.c:1121-1251 | up to any state of any run the receiver's list was always what the sender told if and only if no step before it lost groups: by a mistaken packet that does not make the loss good, or by a HELLO that takes up a cut-off sender listed elsewhere |
| ReplicaRuns.ToldIff | src/zyre_node.c:683-725 | up to any state of any run what the sender told was always its own groups if and only if it neither joined nor left a group with a name over 255 octets while its mailbox was open |
| ReplicaRuns.PrimaryIff | src/zyre_node.c:683-1251 | up to any state of any run the groups in which the receiver listed the sender, while ready, were always the sender's own as they stood when it sent the last packet processed if and only if no step before it brought such a packet |
| ReplicaRuns.ReplicaIsPrimary | src/zyre_node.c:1148-1176 | in a run with neither fault, while the sender is ready, the groups in which the receiver lists it are its own groups as they stood when it sent the last packet processed |
| ReplicaRuns.ReplicaCatchesUp | src/zyre_node.c:683-725 | and once everything sent is processed the receiver's list is the sender's current own groups |
| ReplicaRuns.StatusIff | src/zyre_node.c:1204-1234 | up to any state of any run no packet of the sender fired the status assertions and the counted status was always the one told if and only if no step before it had a packet mistaken after a change of status was lost |
| ReplicaRuns.AssertionFiresIff | src/zyre_node.c:1206-1234 | while all was well, one arrival fires the assertion if and only if it is a JOIN or LEAVE mistaken for the next packet after a change of status was lost |
| ReplicaRuns.StatusCatchesUp | src/zyre_node.c:683-725 | in a run without such a step, once everything sent is processed the counted status is the sender's current one |
| ReplicaRuns.StatusAssertionNeverFires | src/zyre_node.c:1204-1234 | in a run without such a step the status assertions never fire and the counted status is the one last told, through wrap-around of both counters |
| ReplicaRuns.PrefixDelivery | src/zyre_node.c:1115-1127 | what is processed in a session is a gap-free piece of the sender's stream that begins with a HELLO and contains no other |
| ReplicaRuns.GapCaughtIff | src/zyre_peer.c:478-508 | after losing k packets of a session the next arrival shows the loss if and only if k is not a multiple of 65536, and the sender is then forgotten |
| ReplicaRuns.IgnoresUntilHello | src/zyre_node.c:1115-1127 | a sender that is not ready stays ignored and unlisted, in runs of any length, until a HELLO of it arrives |
| ReplicaRuns.OrderlyRuns | src/zyre_peer.c:478-508 | fewer than 65536 losses in a row, and no HELLO lost before a surviving packet of its session, rule mistaken packets out in every run; and without cut-offs no groups are lost either |
| ReplicaLimits.LostHelloFiresAssertion | src/zyre_node.c:1204-1206 | a reachable state in which a lost HELLO has made the status assertion fire |
| ReplicaLimits.MistakenPingMisleads | src/zyre_node.c:1115-1127 | a reachable state, nothing in flight and no assertion fired, in which a PING mistaken after a lost HELLO has left a gap in what was processed, the wrong status counted and the sender listed in groups that are not its own |
| ReplicaLimits.LongNameToldIff | src/zre_msg.c:2116-2125 | after joining a new group the groups told over an open mailbox are the node's own if and only if the name has at most 255 octets |
| ReplicaLimits.LongNameListedIff | src/zre_msg.c:2116-2125 | and when that JOIN arrives at a receiver that was up to date, it lists the sender in the sender's own groups if and only if the name has at most 255 octets |
| ReplicaLimits.LongNameMisleads | src/zre_msg.c:2116-2125 | a reachable state, nothing lost or in flight, in which a receiver lists the sender in a group that the sender is not in, after a name of 256 octets |
| ReplicaLimits.CutOffListIff | src/zyre_node.c:807-833 | after a ready peer was cut off, its next HELLO leaves it listed in exactly the groups the HELLO names if and only if it was listed in no other |
| ReplicaLimits.CutOffMisleads | src/zyre_node.c:807-833 | a reachable state, nothing lost or in flight, in which a cut-off has left the sender listed in a group it is not in, and its ENTER reported twice with no EXIT between |
| NodeTexts.EverythingSentIsSpelt | src/zyre_node.c:456-1484 | in every run in which the application gives C strings and peers' messages were decoded, everything on the wire has strings and counts that a frame can carry |
| NodeWire.DecodedIsSpelt | src/zre_msg.c:880-1091 | what a node takes from any octets that decode is something such a run can be fed with |
| NodeWire.PacketSurvives | src/zre_msg.c:850-1299 | a representable packet of the node's model that is encoded, framed, received and decoded is the same packet |
| NodeWire.PacketFrameIs | src/zre_msg.h:31-84 | a packet of each kind but HELLO goes out under the kind's number with exactly its own fields, in the order and form that the protocol gives them, and WHISPER and SHOUT with their content frames |
| NodeWire.HelloFrameIs | src/zre_msg.h:31-38 | a HELLO goes out with endpoint, groups, status, name and headers in this order, groups and headers as counted lists of long strings and pairs |
| NodeWire.SentSurvives | src/zre_msg.c:850-1299 | so every packet that a node sends to anyone in such a run is received as it was sent, whatever follows it |
| ZreRoundTrip.RoundTrip | src/zre_msg.c:884-1082 | for all ten kinds, decoding the encoded frame gives the message back, with missing lists as empty ones, for any order of the headers and any octets after the frame |
| ZreRoundTrip.StringBack | src/zre_msg.c:166-183 | a string of at most 255 octets without a zero is read back |
| ZreRoundTrip.LongStringBack | src/zre_msg.c:187-207 | so is a long string below 2^32 octets |
| ZreRoundTrip.TableBack | src/zre_msg.c:923-937 | inserting the header pairs one by one, first value kept, rebuilds the header table from any order of its keys |
| ZreOctets.FrameIs | src/zre_msg.c:1305-1483 | the octets of every frame but a HELLO's: AA A1, kind, 2, sequence number, and the fields of the kind |
| ZreOctets.HelloFrameIs | src/zre_msg.c:1393-1419 | the octets of a HELLO's frame |
| ZreOctets.ManyIsFlat | src/zre_msg.c:1399-1418 | a list is written as its items one after the other, in order |
| ZreOctets.Number4IsBigEndian | src/zre_msg.c:93-98 | a 32-bit number is written as four octets, the highest first |
| ZreOctets.CStringIff | src/zre_msg.c:174-207 | what is kept of a string's octets is what comes before the first zero, or all of it |
| ZreOctets.StringReadIff | src/zre_msg.c:174-183 | a string is read, and the needle moved past it, if and only if its length octet and as many octets are there |
| ZreOctets.LongStringReadIff | src/zre_msg.c:187-207 | a long string likewise, after four octets of length |
| ZreOctets.FirstValueCounts | src/zre_msg.c:923-937 | of several header pairs with one key the table keeps the first |
| ZreOctets.MessageReadIff | src/zre_msg.c:880-1082 | a frame is decoded as a message of any kind but HELLO if and only if it opens with signature, kind, version and sequence number and its fields are there in full, and the rest is what follows them |
| ZreOctets.HelloReadIff | src/zre_msg.c:889-940 | a frame is decoded as a HELLO if and only if it opens as one and then holds endpoint, as many groups as counted, status, name and as many header pairs as counted, of which the first with a key counts |
| ZreOctets.MalformedIff | src/zre_msg.c:884-1082 | a frame is malformed if and only if what of it is there shows another signature, an unknown kind or another version, however short it is |
| ZreOctets.FaultReportedIff | src/zre_msg.c:884-1091 | so the return code is -2 if and only if that is so, and 0 otherwise |
| ZreReader.NeedleStaysInside | src/zre_msg.c:114-207 | on every frame that decodes, the needle ends past the fixed header and inside the frame |
| ZreReader.MessageExtend | src/zre_msg.c:880-1091 | octets appended to a frame never change a decision of the decoder |
| ZreReader.TruncationUnderflows | src/zre_msg.c:880-1091 | an encoded frame cut short anywhere is an underflow, never a message and never malformed |
| ZreReader.TruncationGoesUnreported | src/zre_msg.c:1084-1091 | so the return code is the same 0 for a truncated frame as for a whole one |
| ZreReader.ReEncodeIff | src/zre_msg.c:880-1082 | for every kind but HELLO, encoding a decoded frame again gives exactly the octets consumed if and only if none of its strings held a zero octet |
| ZreReader.ZeroGroupIsLost | src/zre_msg.c:174-183 | a JOIN frame whose group is a zero octet decodes as a JOIN of the empty group, which is encoded otherwise |
| ZreTexts.DecodedIsRepresentable | src/zre_msg.c:880-1082 | every message decoded from any octets, of all ten kinds, can be encoded, and is in the form in which a receiver has it |
| ZreTexts.DecodedReadsAsItself | src/zre_msg.c:880-1082 | so a decoded message that is encoded, with its headers in any order, is decoded as itself, whatever octets it came from |
| ZreCodec.SizeIsExactIff | src/zre_msg.c:1310-1384 | the size computed in advance equals the octets written if and only if the message is no HELLO, or has a header table, or no earlier table's size is remembered; it is never too small |
| ZreCodec.EncodeAdornedThenPlain | src/zre_msg.c:1324-1345 | a codec that has encoded a HELLO with a header, and then one without a header table, leaves a buffer larger than the frame in it |
| ZreCodec.Codec.ComputeSize | src/zre_msg.c:1310-1384 | the first pass, with its loops over groups and headers, computes that size and remembers the size of the headers |
| ZreCodec.Codec.PutGroups | src/zre_msg.c:1399-1406 | the loop over the groups writes each as a long string, in order |
| ZreCodec.Codec.PutHeaders | src/zre_msg.c:1411-1418 | the loop over the headers writes each pair, in the order the hash gives |
| ZreCodec.Codec.Encode | src/zre_msg.c:1305-1483 | the two passes together leave in a buffer of the computed size exactly the frame of the grammar |
| ZreCodec.Codec.GetNumber4 | src/zre_msg.c:136-145 | four octets, or an underflow, as a big-endian number |
| ZreCodec.Codec.GetString | src/zre_msg.c:174-183 | the string the grammar reads there, or an underflow |
| ZreCodec.Codec.GetGroups | src/zre_msg.c:908-919 | the loop reads as many long strings as announced, in order, or underflows |
| ZreCodec.Codec.GetHeaders | src/zre_msg.c:923-937 | the loop reads as many pairs as announced into a table where a repeated key keeps its first value, or underflows |
| ZreCodec.Codec.Decode | src/zre_msg.c:880-1091 | on every octet sequence the decoder ends with the outcome the grammar gives, malformed if and only if signature, kind or version show it, and the needle inside the frame; where a message was decoded the needle is where the rest of the frame begins |
| ZreFraming.Send | src/zre_msg.c:1283-1297 | a message without content goes out as one frame, missing content as one empty frame after it, content as its frames; the countdown announces another frame on every frame but the last |
| ZreFraming.FramingRoundTrip | src/zre_msg.c:951-977 | a message is received again with the same content frames whatever follows it: missing content as one empty frame, empty content as none |
| ZreFraming.ReceiveTakes | src/zre_msg.c:951-977 | WHISPER and SHOUT take just the frames up to the first that announces no other, in order; after any other frame, decoded or not, what it announces stays to be received next |
| Hex.TextOf | src/zre_msg.c:239-251 | the loop prints two lower-case digits for each octet |
| Hex.DigitsInOrder | src/zre_msg.c:239-251 | the digits printed are 0 to 9 and a to f in the order of their values, and both cases are read |
| Hex.ScanIff | src/zre_msg.c:215-235 | two characters give the number that `%x` finds at the beginning of such a text: blanks, at most one sign, digits as far as they go, negated in 32 bits after a minus |
| Hex.OctetsOf | src/zre_msg.c:215-235 | the loop reads one octet from each two characters as `%x` does, and nothing from a text of odd length; the first pair that gives no octet aborts it, or leaves its value unset |
| Hex.OctetsBack | src/zre_msg.c:215-251 | reading what was printed gives the octets back, the length doubled and halved |
| Hex.TextBackIff | src/zre_msg.c:215-251 | printing what was read gives the text in lower case if and only if it was all digits |
| Hex.RoundTrip | src/zre_msg.c:215-251 | the two loops in turn return every octet string |

## Left out

- Election across a change of membership: an epoch has fixed members, each starts at most once, only if it contests and only before it has taken part. Apart from the JOIN that completes the members (`NodeNewcomer`), restarts on JOIN, HELLO, LEAVE and removal are in the node model, but the epoch's theorems are not claimed across them, because a restart resets one node's counters and not the others'.
- ElectionRuns.Agreement: claimed for at most 2^32 members, because the counters are 32-bit numbers that wrap around.
- One node alone in a group: the epoch has at least two members; the shortcuts for a node that is alone are in the node model only.
- Father and leader pointers to removed peers: both are modelled as identities, looked up in the peer table when they are used.
- NodeNetworkRuns.NodesAgree: the channels between the nodes lose nothing and carry nothing but the election of one group; what losses do to an election is not claimed. The start of a challenge is a move of its own here; `NodeNewcomer` makes it the JOIN of the last member, and there each node takes that JOIN before any other packet, because one that took an ELECT first would forward it, and count, without the last member.
- Two mailboxes of one sender in transit at once: the channel from A to B orders packets by when they were sent.
- NodeObjects.Node.Perform: takes decoded packets. A frame that underflows is handed on by the C code with return code 0 and partly filled fields; what the node then does with it is not modelled.
- Names and headers of peers, and the fields that events carry besides identity, group and content.
- EVASIVE, SILENT and STOP events, timers and the reap loop: expiry and pinging are actions that may happen at any time. A stopped node stops polling its inbox; the model lets it go on receiving.
- Hex.Scan: what `%x` makes of `0x` with no digit after it differs between C libraries; the model reads nothing.
- Sockets, high-water marks, the UDP beacon, gossip, CURVE keys, ZAP and the rewriting of IPv6 endpoints. Whether connecting succeeds is a parameter, and any peer may be discovered on any endpoint.
- Content frames that follow a message of a kind without content stay on the socket in `ZreFraming.Receive`, as in the code; what a node makes of them as its next message is not followed up.
- ZreCodec.Codec.Decode: returns a message only when decoding succeeds; the fields a failed decoding has filled in so far are not modelled, nor is pointer overflow in the comparison with the ceiling.
- `zre_msg_dup`, the field setters other than their cut at 255 octets, the `zconfig` import and export, printing, logging and the self-tests.
- `src/zyre.c` and `src/zyre_event.c`, which pass commands and events through pipes, and the language bindings.
