# A verified model of the ride service

The repository is a ride-hailing service made of actors: a leader server with
replicas on a ring, drivers, and passengers. This project models its three
stateful cores in Dafny and proves what they keep over whole runs.

**Ring election** (`Ring`, `ServerActor`, `Cluster`, `MessageInvariants`,
`UdpReceiver`, `LostElection`, `DeadEnd`, and the modules whose names begin with
`Election`). The ring has any number of ids; the program fixes five. Each server
keeps the list of servers it believes dead, its neighbour, its sequence numbers
and its ack table. `ServerActor.Replica` is the actor with its mutable fields;
every handler is tied to a function of `ElectionServer`. `Cluster` puts the
servers together: one step is one handler call, a ping that misses the leader, a
datagram duplicated or lost, or a crash. Outstanding items are handled in any
order. Results are stated over runs, under these named conditions:

- `IsRun`: anything goes, false suspicions included.
- `IsAccurateRun`: a ping misses the leader, an election starts, or a server gives
  up on a neighbour, only when the one suspected has crashed. Crashes happen at
  any time.
- `IsStableRun`: moreover nobody crashes during the run; who is already down is
  arbitrary.
- `IsLosslessRun`: moreover no datagram to a live server is lost.

An epoch begins in any state that `Init` allows: nothing is outstanding, and the
servers skip and list crashed servers only. Who leads or whom the servers take
for the leader is left open.

**Registry** (`Registry`, `RegistryActor`, `SocketUpdates`, `ReplicaPrefix`). The
leader's two driver maps, its passengers and one id counter are shown to be one
book of names with a busy flag; the socket updates that the leader queues for
itself can be taken as immediate, but in one exact case; and a replica, which
receives snapshots over TCP, is from its first snapshot in a reign on some
earlier state of that reign's leader, and never an earlier one than before.

**Rides** (`Walk`, `DriverSearch`, `PassengerActor`, `Ride`, `RideLegs`,
`RideLetters`, `RideSocket`, `DriverActor`, `ClientReconnect`). How far and how long drivers and passengers
walk, whom a passenger tries and in which order, that a driver has one ride at a
time and answers every request, that the server's record of it converges, and
that clients find the leader that the replicas elected.

## Where the code and its description part

The model follows the code. These promises hold under a condition only; the
condition is proved exact, or a run is given that breaks the promise.

- README.md:394 says a message without an ack is sent on to the next neighbour.
  The ack table is indexed by sequence number alone, and a forwarded
  announcement keeps the number of its sender, so an ack for one message can
  stand for another. `ElectionLimits.StartIsFollowedUpIff` says, over whole
  runs, when a started election is followed up, and
  `ElectionExact.ElectionsSucceedIff` from which starts elections are sure to
  succeed; `LostElection.ElectionIsLost` is a run from boot in which every
  suspicion is right and a live server's election comes to nothing.
- A server that signs the token and then crashes can be announced as leader:
  `LostElection.CrashedServerIsElected`. The survivors of that run have no
  connection left to ping over, and no election is ever started again
  (`DeadEnd.NoElectionAgain`). What a server announces is the greatest live id
  iff the greatest id of the token is alive or the server finds no neighbour, in
  which case it names itself (`ElectionLimits.AnnouncesBestIffAlive`).
- Acks carry id 0, so an ack never takes a server off the list of those believed
  dead (`ElectionSafety.AckRemovesNothing`); skip safety rests on that.
- After a datagram with a known name and a field that does not parse, the
  receiver does not re-arm itself (`UdpReceiver.ListensIff`).
- A promoted replica gives an id a second time iff it missed a registration
  (`ReplicaPrefix.PromotedIdIsFreshIff`, and `MissedRegistration` for a run).
- README.md:53 says that the leader's information is distributed among the
  replicas. Between an election and the new leader's first snapshot a replica
  can hold a state that the new leader never had
  (`ReplicaPrefix.SecondReignDiffers`).
- A walk ends only when both distances have the same parity and no axis has to
  wait at coordinate 0 (`Walk.ArrivesExactly`); a ride likewise
  (`RideLegs.RideEndsIff`; `NextDoorIsNeverReached` is one that does not end).
- A driver that registers under a name the server knows keeps the old position
  and the old busy flag until its first ride; from then on the record converges
  (`Ride.RegistrationConvergesIff`; `UnwelcomeRecord` is a run in which it has not).
- A driver that reconnects to a leader that does not know it, and then registers
  with another socket before the queued update has run, ends with the old socket
  (`SocketUpdates.UnknownReconnectShows`); a run shows that updates are deferred
  iff a message in it gives a driver a socket that a queued update overwrites
  with another (`SocketUpdates.DeferringIsInvisible`).

## Model

| member | source | states |
|---|---|---|
| ElectionLimits.BootedClusterElects | server/src/server.rs:412-793 | From boot, any ring size and any crashed set with the first leader in it: a lossless run has a bounded number of steps, and if an election was started and no handler has anything left to do, every live server follows the greatest live id, which leads |
| ElectionExact.ElectionsSucceedIff | server/src/server.rs:291-793 | For every start, whoever leads: all lossless runs in which an election starts and which come to rest have everybody alive following the greatest live id, iff no live server, told of the death of a crashed leader that some connected server follows, would post to a crashed neighbour under a number already on its ack table |
| ElectionExact.StaleServerFails | server/src/server.rs:504-516 | Given such a server, there is a lossless run in which a ping misses that leader, an election starts, and which comes to rest with not everybody told |
| ElectionExact.ComesToRest | server/src/server.rs:416-793 | Every lossless run can be carried on by handler calls alone until none is left to make |
| ElectionProgress.ElectionsSucceed | server/src/server.rs:416-793 | The sufficient half for one run: from such a start, with any number of pings and initiators, StartElection handled any time after its ping, reorderings and duplicates, an election cannot come to rest before everybody alive follows the greatest live id |
| ElectionProgress.NewsComesHome | server/src/server.rs:697-777 | From such a start, once an election started, a lossless run that has come to rest has seen some announcement come home to its sender |
| ElectionConnections.FollowersConnect | server/src/server.rs:770-775 | From such a start (a booted cluster is one), once an election started and the run has come to rest: every live server but the winner has taken the news and is connected, unless it has tried in vain since |
| ElectionConnections.ConnectedIff | server/src/server.rs:291-865 | On every run, false suspicions included: a server is connected iff it was at first or has reached the leader, and since then neither has its ping found the connection closed nor an Election named the leader it followed |
| ElectionConnections.StepConnectedIff | server/src/server.rs:573-580 | The same for each single step of any kind |
| ElectionConnections.EverybodyHears | server/src/server.rs:697-777 | When an announcement comes home, every live server has handled an announcement before |
| ElectionProgress.StepKeepsGoing | server/src/server.rs:416-793 | Every step without loss, of servers with any ack tables, keeps something under way that reaches a live server, or leaves everybody informed |
| ElectionProgress.PostGoesOn | server/src/server.rs:504-565 | A handler that refreshes its neighbour and posts leaves its server with a live neighbour, everyone listed, or a wait without an ack behind it, so that something goes on even if its own number is acked |
| ElectionAgreement.Agreement | server/src/server.rs:416-777 | With the crashed set fixed, from any start: every announcement ever made names the greatest live id; a live server keeps the leader it had or knows that one; and who has taken the lead since is that server, and knows itself as leader |
| ElectionSafety.LeaderIsGreatest | server/src/server.rs:710-728 | With crashes at any time: a live server that leads led at the start or is the greatest live id |
| ElectionAgreement.AnnouncementCompletes | server/src/server.rs:697-777 | When an announcement is back at its sender, every live server has the greatest live id as leader and that server leads, from then on for the rest of the run |
| ElectionAgreement.HomecomingSettles | server/src/server.rs:710-730 | The handler call that takes the announcement home closes the circle: every live server is informed |
| ElectionAgreement.ToldOneHopFurther | server/src/server.rs:730-768 | Forwarding extends the stretch of informed servers, since a hop passes over crashed ids only |
| ElectionAgreement.SettledStays | server/src/server.rs:697-777 | An informed cluster stays informed, whatever late messages and elections follow |
| ElectionAgreement.ClosingFindsBest | server/src/server.rs:617-656 | The greatest id in a closed token is the greatest live id |
| ElectionSafety.Coverage | server/src/server.rs:568-656 | With crashes at any time: who finds its own id in the token has every live id in it, and every leader announced is at least every live id |
| ElectionSafety.SkipSafety | server/src/server.rs:81-100 | In every state of an accurate run the believed-dead lists hold crashed ids only, and every id between a server and its neighbour is crashed, also after a failed neighbour search |
| ElectionSafety.StepKeepsSafe | server/src/server.rs:416-793 | The invariant behind coverage and skip safety, for every step |
| ElectionSafety.ClosingListCovers | server/src/server.rs:617-632 | The hops of a token from a server back to itself form a closed walk over crashed ids, so every live id signed |
| ElectionSafety.AckRemovesNothing | server/src/udp_receiver.rs:116-119 | An ack under id 0 marks the number and leaves the rest of the server as it was |
| Ring.ClosedWalkVisits | server/src/server.rs:407-414 | A walk on the ring that ends where it began and passes over dead ids only calls at every live id |
| Ring.UpdateNeighborExact | server/src/server.rs:81-100 | For every ring, list and starting neighbour: fails iff nobody else is free; keeps an unlisted neighbour; otherwise finds the first free id clockwise; a failed search ends one past the old neighbour |
| Ring.UpdateNeighborKeepsHop | server/src/server.rs:81-100 | If the list and the old hop cover dead ids only, so does the new hop, and failure means that nobody else is alive |
| MessageInvariants.MessagesOnAnyRun | server/src/server.rs:416-777 | With false suspicions allowed: no token carries an id twice, an announced leader is at least the announcer and has posted a message itself, and originator and number determine the message |
| MessageInvariants.StepKeepsMessages | server/src/server.rs:416-777 | The invariant behind it, for every step whatever is suspected |
| MessageInvariants.ElectionPosts | server/src/server.rs:568-694 | An Election handler posts one well-formed message under a fresh number, for servers the token spoke for |
| ElectionTermination.ElectionsEnd | server/src/server.rs:291-777 | With the crashed set fixed: p pings that miss the leader and d datagrams duplicated make at most (p + d) * (StartCost(n) + 1) steps, a bound that depends on the ring only |
| ElectionTermination.StepSpends | server/src/server.rs:504-777 | Each step that makes no new work leaves strictly less outstanding |
| ElectionTermination.ResendDescends | server/src/server.rs:511-565 | Each re-send lowers (ids not yet listed, whether the awaited one is), on any server and whatever it suspects |
| ElectionTermination.HopComesCloser | server/src/server.rs:730-768 | A forwarded announcement gets strictly closer, clockwise, to its live sender |
| ElectionTermination.SignersFit | server/src/server.rs:658-692 | A token of distinct ids has at most as many signers as the ring has ids |
| ElectionTermination.CheckSpends | server/src/server.rs:504-565 | A wait that runs out is worth more than all it sends |
| ElectionTermination.ElectionSpends | server/src/server.rs:568-694 | A token is worth more than what its handling posts, whether it is signed, closed or stopped |
| ElectionTermination.NewLeaderSpends | server/src/server.rs:697-777 | An announcement is worth more than what its handling posts |
| ElectionLimits.BootIsStart | server/src/main.rs:108-131 | The booted cluster, with the first leader crashed, is a start from which the election results hold |
| ElectionLimits.AnnouncesBestIffAlive | server/src/server.rs:588-656 | With crashes at any time, of every Election handler call: it announces a leader iff it closes the token or finds no neighbour, and the leader announced is the greatest live id iff the greatest id of the token is alive or it finds no neighbour |
| ElectionLimits.StartIsFollowedUpIff | server/src/server.rs:504-565 | On every run, false suspicions included: when the wait for a started election runs out, the server acts on it iff the number was not on the ack table at the start and no ack for that number, whatever it was for, has been handled since |
| ElectionLimits.AckedIff | server/src/server.rs:780-792 | Between any two moments of a run the ack table gains exactly the numbers of the acks handled |
| ElectionLimits.StepListedIff | server/src/server.rs:416-793 | On every step, false suspicions included: an id is on the believed-dead list iff the server has just come to suspect it (as dead leader of its own or another's election, or as a neighbour waited for in vain), or it was there and no ack of its own has just come |
| LostElection.ElectionIsLost | server/src/server.rs:764-790 | A reachable state, every suspicion right, at rest with a live server that has posted the token of an election it started, does not lead, and still follows a crashed leader |
| LostElection.CrashedServerIsElected | server/src/server.rs:617-656 | A reachable state, every suspicion right, in which a crashed server has been announced |
| DeadEnd.NoElectionAgain | server/src/server.rs:300-327 | From there on, in every accurate continuation, with any further crashes, no ping misses and no election starts again; and as long as both survivors live, both follow a crashed server and neither leads |
| ServerActor.Replica.constructor | server/src/main.rs:108-131 | A new replica: server 1 as leader, the next id as neighbour, nothing listed or acked |
| ServerActor.Replica.RefreshNeighbor | server/src/server.rs:81-100 | The in-place search loop does what the search function does, for every state |
| ServerActor.Replica.Ping | server/src/server.rs:291-327 | A connected replica that finds the connection to its leader closed forgets it and sends itself StartElection; a leader, or a server without connection, does nothing |
| ServerActor.Replica.StartElection | server/src/server.rs:416-480 | New state and items posted, as the specification function gives them |
| ServerActor.Replica.CheckIfNeighborAcked | server/src/server.rs:504-565 | New state and items posted on both branches of the ack test |
| ServerActor.Replica.HandleElection | server/src/server.rs:568-694 | New state and items posted when the server is alone, closes the token or signs it |
| ServerActor.Replica.GreatestId | server/src/server.rs:619-630 | The loop finds the greatest id of the token |
| ServerActor.Replica.HandleNewLeader | server/src/server.rs:697-777 | New state and items posted, with forwarding, homecoming and reconnection |
| ServerActor.Replica.HandleNeighborAck | server/src/server.rs:780-792 | Removes the ack's id from the list and marks the number |
| ServerActor.Replica.ConnectToServer | server/src/server.rs:827-865 | Sets the connection flag iff the leader was reached |
| ElectionServer.MaxIdIsMax | server/src/server.rs:619-630 | The greatest id of a non-empty list is in it and bounds it |
| UdpReceiver.Receiver.Listen | server/src/udp_receiver.rs:62-223 | By name and by which fields are there: what one datagram makes the receiver send and hand over, and whether it listens on |
| UdpReceiver.ListensIff | server/src/udp_receiver.rs:93-223 | The receiver still listens iff no datagram with a known name has come without a field that the name asks for |
| UdpReceiver.HandedOverIff | server/src/udp_receiver.rs:93-180 | An election message reaches the server iff a datagram with its name and all its fields came before the first broken one |
| UdpReceiver.AckedIffHandedOver | server/src/udp_receiver.rs:108-160 | Acks go out for the messages handed over and for those only, all under id 0 |
| UdpReceiver.AckHandedOverIff | server/src/udp_receiver.rs:161-190 | An ack reaches the server, with its id and its number each in its place, iff a datagram with its name and all its fields came before the first broken one |
| UdpReceiver.LeaderAskedIff | server/src/udp_receiver.rs:191-205 | Who asks for the leader is handed over under the same condition |
| UdpReceiver.AckRoundTrip | server/src/udp_receiver.rs:108-190 | A message handed over at its receiver is acked so that its sender marks the message's number and takes nobody off its list |
| ClientReconnect.ConnectToServerLeader | common/src/connection.rs:10-33 | The descending scan connects to the greatest listening id and is refused iff nobody listens |
| ClientReconnect.ReconnectFindsLeader | common/src/connection.rs:10-33 | In every state after any start the scan reaches the greatest live id or a server that led at the start; once the news is out it reaches the former, and all live servers follow it |
| ClientReconnect.ClientsFollowElection | server/src/server.rs:710-730 | After a lossless election every reconnecting client reaches the server that all live replicas follow |
| Registry.RegistryIsBook | server/src/server.rs:110-255 | After any handlers in any order from the empty registry: the two maps are disjoint and are the one book, ids are 1..idsCount with one name each, and passengers are offered exactly the entries that are not busy |
| Registry.ApplyRefinesWrite | server/src/server.rs:110-255 | Each handler on the two maps is one write to one entry of the book |
| Registry.StepKeepsRegistry | server/src/server.rs:110-255 | Each handler keeps the registry valid, forgets nobody and renumbers nobody |
| Registry.WriteHandsOut | server/src/server.rs:142-156 | A new id is the next one and goes to one new name |
| Registry.WriteKeepsValid | server/src/server.rs:142-213 | Drivers and passengers never share an id, and no id is skipped |
| Registry.ViewTellsApart | server/src/server.rs:110-255 | Two registries with the same book are equal, so nothing is lost in the view |
| Registry.WriteAllOf | server/src/server.rs:110-255 | Any handler sequence keeps the registry valid and every name's id |
| RegistryActor.RegistryServer.constructor | server/src/main.rs:43-63 | A leader boots with an empty, valid registry |
| RegistryActor.RegistryServer.NewDriver | server/src/server.rs:110-157 | New registry and mailbox for an unknown, a free and a busy name |
| RegistryActor.RegistryServer.GetDrivers | server/src/server.rs:160-173 | The list offered is exactly the entries of the book that are not busy |
| RegistryActor.RegistryServer.PassengerLogin | server/src/server.rs:176-213 | An old passenger keeps its id, a new one gets the next, and its connection is recorded under it |
| RegistryActor.RegistryServer.UpdateDriver | server/src/server.rs:216-239 | A busy driver becomes free at the new position; anyone else is left alone |
| RegistryActor.RegistryServer.BusyDriver | server/src/server.rs:242-255 | A free driver becomes busy with its record unchanged; anyone else is left alone |
| RegistryActor.RegistryServer.ReconnectDriver | server/src/server.rs:896-926 | Queues the socket update and tells the passenger iff its connection is known |
| RegistryActor.RegistryServer.UpdateDriverSocket | server/src/server.rs:929-950 | Changes the socket in whichever map has the name |
| RegistryActor.RegistryServer.UpdateNetworkState | server/src/server.rs:364-386 | The snapshot replaces the replica's registry |
| SocketUpdates.DeferringIsInvisible | server/src/server.rs:110-140 | For every run of messages and queued updates, of known and unknown drivers: the leader can be taken at each moment for one that changes sockets at once iff no message of the run gives a driver a socket that a queued update overwrites with another |
| SocketUpdates.UpdateCommutesIff | server/src/server.rs:929-950 | A socket update changes places with another message iff the two do not give one driver two different sockets; with BusyDriver, UpdateDriver and PassengerLogin always |
| SocketUpdates.UpdateChangesOneSocket | server/src/server.rs:929-950 | It changes the socket of one record and nothing else |
| SocketUpdates.QueueCommutesIff | server/src/server.rs:110-255 | A whole queue of updates, of any names, changes places with a message iff the message gives no driver a socket that the queue overwrites with another |
| SocketUpdates.QueueRelabels | server/src/server.rs:929-950 | A queue of updates gives each known driver the last socket it has for it and changes nothing else |
| SocketUpdates.EventIsImmediate | server/src/server.rs:110-140 | One event, seen from after the queue has run empty, is the immediate change iff it does not give a driver a socket that the queue overwrites |
| SocketUpdates.UnknownReconnectShows | server/src/server.rs:896-926 | After a reconnection of a driver unknown to the leader, a registration that comes before the queued update shows the deferral iff the socket has changed |
| SocketUpdates.FoundWhereItSaid | server/src/server.rs:110-140 | However messages and queued updates fall: once the queue has run empty, the record of a known driver has the socket of its last registration or reconnection |
| SocketUpdates.AnnouncedSocket | server/src/server.rs:116-138 | A registration or reconnection of a known driver gives its record the socket announced, whatever else is queued |
| SocketUpdates.FirstSocket | server/src/server.rs:142-153 | The first registration does so too, unless an update for the name is still queued, whose socket then wins |
| ReplicaPrefix.ReplicaIsPrefix | server/src/server.rs:331-386 | In every reign, whatever leader and replica bring to it: there is one nondecreasing sequence of places in the leader's growing history, over the whole run, such that the replica is at each moment after its first snapshot the state at its place, and before it what it was |
| ReplicaPrefix.PromotedReplica | server/src/server.rs:364-386 | A replica promoted in the middle of any reign that began with a valid registry: after its first snapshot it is valid and agrees with the leader on the id of every name it knows; before it, it is as it was, and agrees if it agreed with what the leader began with |
| ReplicaPrefix.PromotedIdIsFreshIff | server/src/server.rs:142-143 | In any reign and at any moment: the next id of a valid replica is greater than all it knows, and new to the old leader iff the leader has given out no more ids than the replica knows of; from the first snapshot on it never knows of more |
| ReplicaPrefix.MissedRegistration | server/src/server.rs:142-143 | A run after which the promoted replica gives out an id that the old leader has given to somebody else |
| ReplicaPrefix.SecondReignDiffers | server/src/server.rs:364-386 | Runs of two reigns after which, until the second leader's first snapshot, a replica has a state that this leader never had and an id that is somebody else's there |
| ReplicaPrefix.MarksStayFit | server/src/server.rs:331-386 | Snapshots under way stay in the order of the history, and the replica's place in it never moves back |
| ReplicaPrefix.HistoryIsValid | server/src/server.rs:110-255 | From any valid registry a leader begins with, every state in its history is valid and keeps what every earlier one held |
| DriverSearch.SearchIsStableSort | passenger/src/passenger.rs:59-82 | Searching until nobody is found tries exactly the drivers at less than 1005, stably ordered by 10-wide band, and leaves the others in order |
| DriverSearch.SearchConserves | passenger/src/passenger.rs:206-230 | Tried and left together are the original list: no entry is tried twice |
| DriverSearch.SelectFrom | passenger/src/passenger.rs:59-82 | From any circle of the widening with nobody nearer, one search takes the first driver of the least band out, or finds nobody |
| DriverSearch.SelectNobodyIff | passenger/src/passenger.rs:59-82 | One search from range 5 finds nobody iff everybody is at 1005 or farther, and then leaves the list as it was |
| DriverSearch.SelectNearlyClosest | passenger/src/passenger.rs:59-82 | The driver chosen is at most 9 farther than any in the list, and is taken out with the rest in order |
| DriverSearch.DistanceBelow | passenger/src/functions.rs:15-20 | The rounded distance is below a range iff the exact distance is |
| DriverSearch.FloorSqrtExact | passenger/src/functions.rs:15-20 | The integer root is the floor of the real one |
| PassengerActor.Passenger.SelectDriver | passenger/src/passenger.rs:59-82 | The loop and the recursion on the range choose and remove what the specification function does |
| PassengerActor.Passenger.HandleDrivers | passenger/src/passenger.rs:195-230 | A new list replaces the old one and is searched from range 5 |
| PassengerActor.Passenger.AskAll | passenger/src/passenger.rs:195-230 | With every driver refusing, the rounds of Drivers and KeepLooking ask the drivers, and leave the list, as the repeated search does: stably by band, nobody twice |
| PassengerActor.Passenger.Move | passenger/src/passenger.rs:116-132 | One move on both axes, with the overflow at 0 |
| PassengerActor.Passenger.HandleTraveling | passenger/src/passenger.rs:302-345 | One move, and another one to come iff the destination is not reached |
| Walk.ArrivesExactly | driver/src/driver.rs:39-51 | A walk first stands on its target after n moves iff the target is reachable and n is the greater distance, or 2 from the target itself |
| Walk.AfterByAxis | driver/src/driver.rs:39-51 | Closed form of n moves: straight to the target, then off it and back |
| Walk.OverflowsIff | driver/src/driver.rs:39-51 | A walker, which stops on arrival, overflows on its way iff it cannot arrive and a target coordinate is 0 |
| Ride.OneRideToken | driver/src/driver.rs:243-494 | In every reachable state a driver has one pending ride message if busy and none if free; a busy one has the passenger, the place to fetch it and the destination of the ride it accepted last; after its first message it is registered |
| RideLetters.RequestIsAnswered | driver/src/driver.rs:251-270 | In every run each request is answered at once by one letter over its own connection: with the driver's socket iff the ride is taken, by a refusal iff a ride is under way, which it leaves alone |
| RideLetters.AsManyAnswers | driver/src/driver.rs:243-381 | There are as many answers as requests: nothing else is answered |
| RideLetters.ArrivesOnce | driver/src/driver.rs:366-373 | The passenger of every ride that ended was told exactly once that the driver has arrived, over its own connection and with the driver where it waited; that of a ride under way iff it was picked up |
| RideSocket.DriverIsFound | driver/src/driver.rs:177-195 | In every run, with the registration over and nothing on its way: the server's record has the socket the driver listens on, whether it had the name before or not, at the latest when the queue of updates has run empty |
| Ride.RidesAreSeparate | driver/src/driver.rs:243-494 | Between two accepted rides the first one ended, at its destination |
| Ride.StepKeepsToken | driver/src/driver.rs:243-494 | The invariant behind both, for every step |
| Ride.ServerViewConverges | driver/src/driver.rs:177-225 | With nothing on its way, the two maps have a registered driver free or busy as it is, and free at its exact position, iff it has accepted a ride, or the server did not have its name at first, or had it free and at its position; whatever else the server handles meanwhile |
| Ride.StepKeepsConverging | driver/src/driver.rs:435-494 | The invariant behind it, for every step of driver and server |
| Ride.ServerFollows | server/src/server.rs:110-255 | The two maps say of a driver what the messages about it amount to, and other messages do not touch it |
| Ride.RegistrationConvergesIff | server/src/server.rs:113-140 | In every state of every run of a registered driver: the messages on their way make the record show the driver as it is, iff the same condition holds |
| Ride.UnwelcomeRecord | server/src/server.rs:129-140 | A run after which a free driver, registered again, is still busy at the server with nothing on its way |
| RideLegs.RideEndsIff | driver/src/driver.rs:342-430 | An accepted ride comes to its end iff both legs are reachable |
| RideLegs.NextDoorIsNeverReached | driver/src/driver.rs:342-381 | A ride accepted from the place next to the driver's: in no number of calls does it come to its end |
| RideLegs.RideEnds | driver/src/driver.rs:342-430 | Then it takes the sum of the moves of the legs and ends at the destination with the passenger picked up |
| RideLegs.PickUpEnds | driver/src/driver.rs:342-381 | A reachable passenger is picked up after exactly the moves of the walk |
| RideLegs.DestinationEnds | driver/src/driver.rs:387-430 | A reachable destination is reached after exactly the moves of the walk |
| RideLegs.DriverAndPassengerStayTogether | passenger/src/passenger.rs:302-345 | From the pick-up on, driver and passenger are at the same place after every step and stop at the same step |
| DriverActor.DriverProcess.constructor | driver/src/main.rs:100-145 | A new driver is free, unregistered and without a ride |
| DriverActor.DriverProcess.HandleRegister | driver/src/driver.rs:177-225 | Announces the driver with its position |
| DriverActor.DriverProcess.HandleRequestRide | driver/src/driver.rs:243-322 | Refuses when busy; otherwise becomes busy, tells server and passenger, and starts the ride |
| DriverActor.DriverProcess.HandleStartRide | driver/src/driver.rs:325-337 | Hands on to the pick-up |
| DriverActor.DriverProcess.HandlePickUpPassenger | driver/src/driver.rs:342-381 | One move, and the next message by whether the passenger is reached |
| DriverActor.DriverProcess.HandleRideToDestination | driver/src/driver.rs:387-430 | One move, and the next message by whether the destination is reached |
| DriverActor.DriverProcess.HandleEndRide | driver/src/driver.rs:435-494 | Becomes free at the destination and tells the server |
| DriverActor.DriverProcess.Move | driver/src/driver.rs:39-51 | One move on both axes, with the overflow at 0 |

## Left out

- Sockets, mailboxes, timers and logging: a step is one handler call, a datagram or self-message is an outstanding item, and a timeout that runs out on a crashed neighbour is the `Accurate` condition.
- `WaitForNeighborAck` is one item together with the `CheckIfNeighborAcked` it turns into; messages that cannot be queued because a mailbox is full are not modelled.
- `received_neighbor_ack` and `election_on_course`: fields the election never reads.
- Replicas that come back during an election, `NewServerConnection`, `SetLeader`, `Stop`, `SendLeaderId` and the start-up scan: the election results are about runs without rejoin.
- The first leader has no UDP receiver in the program; in the model every server has one, which only adds runs.
- ElectionProgress.ElectionsSucceed: is about runs with a fixed crashed set and no lost datagram to a live server; what holds with servers crashing in the middle is coverage and skip safety.
- A StartElection that is handled after its server has come to know a live leader lists that leader as dead; such a step is a false suspicion, and so in `IsRun` only.
- Whether the connection a server holds is to the leader it knows is not modelled: a ping that misses is right when that leader has crashed.
- UdpReceiver.Receiver.Listen: which fields of the payload are there and of the right type is given, not parsed from text; failing to queue a message is not modelled.
- RegistryActor.RegistryServer.UpdateNetworkState: the lists of disconnected servers and of replica sockets in a snapshot are not part of this model.
- RegistryActor.RegistryServer.GetDrivers: gives the drivers as a set, because the order of the program's hash map is unspecified; the searches are proved for every order.
- JSON and line framing, the u64 width of ids and sequence numbers (only the walk's subtraction at 0 is kept, as the end of the process), and the f64 rounding of distances, which is taken as the exact floor.
- The pause of a second before the passenger searches again, and the connection to the driver chosen: `PassengerActor.Passenger.AskAll` takes every driver as refusing.
- DriverActor.DriverProcess.HandleRequestRide: the recovery file is not part of this model; a connection is a number.
- Recovery files, `Recover`, `Recovery`, `ReconnectPassenger`, `PassengerRecover` and messages sent again after a reconnection: the ride results are about runs without failover.
- Payment and the gateway: a random authorisation and an echo.
