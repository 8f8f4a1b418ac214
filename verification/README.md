# liborts: the publish/subscribe server, in Dafny

The server keeps parameters ("speed", "controller::throttle") for clients that talk to it in
lines of text. A client *provides* a parameter by sending `name=value` and *asks* for parameters
with `register(topic)`, where the topic may contain wildcards. The server retains values, tells
every client which topics are asked for, and sends a value only to the clients that are out of date.

The project follows the source, one module for each part:

| module | part | form |
|---|---|---|
| `Topics` | names, levels and the meaning of wildcards | functions, and the splitting loop |
| `Trees`, `Trie` | the tree of topics: as a value, and as linked objects updated in place | functions; class `Topic` |
| `Filters`, `FilterLaws` | who is out of date, and what that guarantees over sequences of values | classes `NumericData`, `DiscreteData`; functions |
| `Hops` | what registering again does to that, and two filters in a row | functions and lemmas |
| `Model`, `Increments` | the state as a value, what each step makes of it and what it writes, and how loops build that up | functions and lemmas |
| `Parameters`, `ServerState` | the server and its parameters, updated in place | classes `Parameter`, `Server` |
| `Lives`, `Outputs`, `Histories` | what a step makes of every petition and parameter and what it writes, said again from the state before it; and the state read off the events alone | predicates and lemmas |
| `Steps`, `Delivery`, `Runs` | what a step keeps, what it writes to whom, and what holds in all reachable states | lemmas |
| `Providers` | when a provider sends at all, and how near its values a subscriber's are | lemmas |
| `Examples` | runs that show what is assumed and what can go wrong | lemmas |
| `Wire`, `Framing` | taking lines apart; cutting them out of a byte stream | class `Connection`; functions |
| `MainLoop` | accepting, draining and removing clients | class `Loop` |
| `Poller` | the poller over `poll`, and `threadwait`'s bookkeeping | classes `PollPoll`, `ThreadWait` |
| `Waiters` | `threadwait::poll` under every interleaving | transition system |

How the parts hang together. A `Topic` object always has the shape `Trees` gives it, and a shape is
determined by the flat set of parameters. Every `Server` method is proved to turn the state it finds
into the state `Model` says, and to write exactly the lines `Model` says. `Loop` feeds the bytes of
all clients to a server; its invariant is that the server's state is the end of a run in the sense
of `Runs`, that the log is a log of that run, and that the commands received from each client are
those in its byte stream. So what `Runs` proves about runs holds of the objects. What `Model` says is itself proved against
descriptions that do not use it: `Lives` and `Outputs` for each step, `Histories` for whole runs.

Lines written to clients go to a log, whose entries carry what caused them (a push, a reply to
`get`, a relayed `noretain`, and for which petition). The lines of one step are stated as a set,
each written once; their order within a step depends on how sets of pointers are ordered, which is
left open. Pointers to clients are numbers. Numbers are reals, and `stof` is an arbitrary partial
function from text to numbers.

What the proofs showed about the code:

* **Separators.** A name survives splitting and joining exactly when its colons come in adjacent
  pairs (`JoinInvertsSplit`). A single `:` also separates, and takes the next character with it, so
  `a:xb` and `a::b` are one topic; a name that ends in a lone `:` makes `substr` throw.
* **Registering twice.** A registration resets what the filter remembers of the client, and the
  server then sends the value only if it is the margin or more from 0. A client that held a value
  other than 0 can therefore be left with an outdated one exactly when the present value is nearer
  to 0 than the margin (`ReregisterIsSafe`, `SomebodyIsLeftBehind`). This is why "last pushed" starts
  anew with each registration.
* **Announcements.** A new topic is announced to the providers too, and a provider answers by
  registering the server again without sending anything. A subscriber that holds a value other than 0
  at that moment can then stay outdated (`AnnouncementIsSafe`, `AnnouncementBreaksTheBound`).
* **Retractions.** When a topic is retracted, or a parameter, whose name counts as a topic, the
  providers unregister the server from everything that covers, and send nothing more until another
  new topic is announced to them; other petitions that cover the same parameters do not count. So a
  client that never unregisters can be cut off by one that does, or that leaves. `StandsOn` and
  `DeliveryEnds` say exactly when; `SomebodyIsUnheard` is a run in which it happens.
* **Two hops.** A subscriber stays within twice the margin of the provider's value, and exact at 0,
  exactly when the latest the provider was told is an announcement and its entry for the server is
  settled with what the subscriber holds (`TwoHops`, `ProvidersReachSubscribers`).
* **Overlapping petitions.** `unregister` takes the client off every parameter the topic covers, also
  those another of its petitions covers, and even when only others hold the topic
  (`SomebodyIsForgotten`). Among the parameters the server still has, what the client's petitions ask
  for is kept exactly when none is covered twice (`UnregisterHonoursItself`), and a client that never
  unregisters is subscribed to all of those it asks for (`FaithfulAreHonoured`). Whether their
  providers go on sending is the question of the retractions.
* **Exceptions.** A line makes an exception leave `ParseLine` exactly when its topic does not split or
  it assigns text that is no number to a numeric parameter (`ParseLine`).
* **Lines.** A command comes through the wire unless its name contains `=`, is `connected`, or comes
  with a complete pair of parentheses (`ParseInvertsRender`); the stream arrives whole exactly when
  it contains no NUL (`ReceivedIsWhole`).
* **The poller.** Adding a descriptor that is there, or removing one that is not, and nothing else,
  breaks `poll_poll`'s index (`PollPoll.Add`, `PollPoll.Remove`). `threadwait::remove` never does the
  second.
* **Late results.** With several waiters a call can return what a poll found that an earlier call
  started (`LateResults`). Nothing is lost or counted twice (`NoneIsLost`, `CountedOnce`).

## Model

| member | source | states |
|---|---|---|
| Topics.SplitTopic | common.cpp:136-146 | the loop fails exactly for names ending in an unpaired `:`, and otherwise gives the segments; it always ends with at least one |
| Topics.SplitInvertsJoin | common.cpp:136-146 | splitting the join of colon-free levels gives the levels back |
| Topics.JoinInvertsSplit | common.cpp:136-146 | joining the split gives the name back exactly for names whose colons are paired |
| Topics.ProperNames | common.cpp:136-146 | well-formed names are exactly the joins of colon-free levels, and are equal iff their splits are |
| Topics.SkippedCharacterIsLost | common.cpp:141-142 | a single `:` separates and the character after it is lost: two different names, one topic |
| Topics.FailsAtTheEnd | common.cpp:136-146 | splitting throws iff the name ends in `:` and splits without it |
| Topics.ExactPatterns | common.cpp:40-69 | a pattern accepts just its own topic iff it has no `*` and no `+` before its last level |
| Topics.MatchesByLevels | common.cpp:44-66 | level by level: before the first `*` a level stands for itself and a `+` that does not end the pattern for any, the `*` takes at least one level, and without one the lengths agree |
| Trees.PlantCanonical | common.cpp:7-22 | inserting keeps the tree canonical: parameters where their names spell, no empty node below the root |
| Trees.PlantAdds | common.cpp:7-22 | inserting adds exactly that parameter to what the tree contains |
| Trees.UprootCanonical | common.cpp:23-39 | erasing with pruning keeps the tree canonical |
| Trees.UprootRemoves | common.cpp:23-39 | erasing removes exactly that parameter |
| Trees.SameElementsSameTree | common.cpp:7-39 | two canonical trees with the same parameters are equal, whatever their histories |
| Trees.PlantThenUproot | common.cpp:7-39 | inserting a new parameter and erasing it restores the tree |
| Trees.GatherIsFilter | common.cpp:40-69 | wildcard look-up finds exactly the parameters whose rest of name the pattern accepts, at every node |
| Trees.CandidatesAreExact | common.cpp:70-86 | exact look-up chooses from exactly the parameters of that split name |
| Trees.LookUpsAgree | common.cpp:40-86 | the two look-ups agree on patterns without wildcards |
| Trie.Topic.Insert | common.cpp:7-22 | the linked objects afterwards have the shape of the tree with the parameter planted |
| Trie.Topic.Erase | common.cpp:23-39 | the linked objects afterwards have the shape of the tree with the parameter uprooted and empty nodes cut off |
| Trie.Topic.GetAllMatches | common.cpp:40-69 | the recursion over the objects, ending although `*` descends with the same pattern, gathers what the shape says |
| Trie.Topic.GetMatch | common.cpp:70-86 | finds a candidate, or none when there is none |
| Trie.Topic.InsertAtRoot | include/orts/common.h:166-170 | a root that stands for a set of parameters stands for one more |
| Trie.Topic.EraseAtRoot | include/orts/common.h:171-175 | it stands for the set without the parameter |
| Trie.Topic.GetAllMatchesAtRoot | common.cpp:40-69 | look-up from the root is filtering the flat set by the meaning of the pattern |
| Trie.Topic.GetMatchAtRoot | common.cpp:70-86 | returns a parameter of that split name, or null iff the set has none |
| Filters.Shadow.RefreshSyncs | include/orts/common.h:46-82 | one pass brings every client up to date, addresses exactly those that were not, and a second pass addresses nobody |
| Filters.NumericData.AddRegister | include/orts/common.h:38-41 | a client registered anew is remembered with 0, the others as before |
| Filters.NumericData.GetClientsToSend | include/orts/common.h:46-57 | the loop returns exactly the outdated clients and refreshes their entries only; unparsable text changes nothing |
| Filters.DiscreteData.AddRegister | include/orts/common.h:64-67 | a client registered anew is remembered with the empty text |
| Filters.DiscreteData.GetClientsToSend | include/orts/common.h:72-82 | the loop returns exactly the clients with another text and leaves all with the value |
| FilterLaws.NoDrift | include/orts/common.h:46-57 | after any sequence of values a client is strictly within the margin, exact at 0, and holds what was pushed last |
| FilterLaws.Economy | include/orts/common.h:46-57 | pushes that jump by the margin, times the margin, are at most the total variation less the distance still unreported |
| FilterLaws.SmallPushesReportZero | include/orts/common.h:51 | every push is a jump or reports 0: the smaller ones are all 0, and no more than the zeros among the values |
| FilterLaws.RepeatIsSilent | include/orts/common.h:46-57 | feeding the same value again pushes nothing |
| Hops.FilterHolds | include/orts/common.h:38-57 | what a filter remembers of a client follows from the values since the client's latest registration alone, whoever else comes and goes between them |
| Hops.SoundForEver | include/orts/common.h:46-57 | whatever values follow, a client stays within the margin and exact at 0 iff its entry is what it holds |
| Hops.TwoHops | Examples/RailDriver/raildriver.cpp:369-375 | after any values, announcements and retractions at the provider, a subscriber stays within twice the margin and exact at 0 for every continuation iff the provider has an entry for the server and either both it and what the subscriber holds are 0, or it is not 0 and they differ by at most the margin |
| Hops.TwoHopsUndisturbed | Examples/RailDriver/raildriver.cpp:369-375 | when the provider wrote nothing before an announcement, and after it nothing is announced or retracted, the bound holds whenever the subscriber joins |
| Hops.AnnouncementIsSafe | common.cpp:88-93 | an announcement, which sets the provider's entry to 0, makes the bound hold for every continuation iff the subscriber holds 0 then |
| Hops.RetractionIsHarmful | common.cpp:94-97 | after a retraction the provider writes nothing, and the bound holds for no subscriber, however many values pass |
| Hops.AnnouncementBreaksTheBound | common.cpp:88-93 | values 0.15 and 0.08, an announcement, and 0: the subscriber keeps 0.15 |
| Hops.ResetIsSafe | common.cpp:88-93 | a registration that sends nothing, as a provider's, is harmless for every continuation iff the value held was 0 |
| Hops.ReregistrationIsSafe | serverlib.cpp:44-47 | a registration followed by sending, as the server's, is harmless iff the value held was 0 or the present one is at least the margin from 0 |
| Parameters.Parameter.constructor | include/orts/common.h:107-111 | a new parameter is unset, has no clients, and the filter and margin its name calls for |
| Parameters.Parameter.AddRegister | include/orts/common.h:129-133 | the subscriber set and the filter change together |
| Parameters.Parameter.Unregister | include/orts/common.h:134-138 | likewise for leaving |
| Parameters.Parameter.Send | common.cpp:156-165 | an unset parameter sends nothing; otherwise one line to each outdated client and to no other |
| Parameters.Parameter.SetValue | common.cpp:169-174 | stores the value, marks it set and sends it; fails exactly when the conversion throws |
| ServerState.Server.AddParameter | include/orts/common.h:166-170 | tree, flat set and state gain the same parameter |
| ServerState.Server.RemoveParameter | include/orts/common.h:171-175 | tree, flat set and state lose the same parameter |
| ServerState.Server.GetParameter | serverlib.cpp:18-27 | the one parameter of that split name, or a new one with the subscribers of all covering petitions; writes nothing |
| ServerState.Server.AddRegisterPetition | serverlib.cpp:29-48 | records the subscriber, announces the petition to those not told, registers the client with every covered parameter and sends it the values |
| ServerState.Server.UpdateEmptyRegisters | serverlib.cpp:50-77 | for any order of the nested deleting loops: drops exactly the petitions without subscribers and the vacant parameters they cover, each retracted once |
| ServerState.Server.RemoveRegisterPetition | serverlib.cpp:79-88 | the client leaves the petition and everything it covers, then the clean-up |
| ServerState.Server.UpdatePetitions | serverlib.cpp:90-102 | a new parameter gets the union of the subscribers of covering petitions |
| ServerState.Server.AddClient | serverlib.cpp:104-112 | greets if needed, tells the client of every petition once, and connects it |
| ServerState.Server.RemoveClient | serverlib.cpp:114-134 | the state afterwards and the retractions written, through all of its loops |
| ServerState.Server.AssignValue | common.cpp:113-123 | value, push lines and provider of the parameter, created if needed; fails exactly when splitting or conversion throws |
| ServerState.Server.RelayAll | serverlib.cpp:142-159 | through the temporary tree, one line to each subscriber of each covering petition; nothing changes |
| ServerState.Server.GetValues | serverlib.cpp:160-164 | one line for each covered parameter, to the client that asked |
| ServerState.Server.FunctionCall | serverlib.cpp:136-166 | what each function does to the state and writes, and exactly when an exception escapes |
| ServerState.Server.ParseLine | common.cpp:104-125 | a line does what its command means in the model, and an exception escapes iff the command does not survive |
| Steps.ConnectKeepsInv | serverlib.cpp:104-112 | accepting keeps the invariant |
| Steps.RegisterKeepsInv | serverlib.cpp:29-48 | registering keeps the invariant |
| Steps.UnregisterKeepsInv | serverlib.cpp:79-88 | unregistering keeps the invariant |
| Steps.AssignKeepsInv | common.cpp:113-123 | assigning keeps the invariant, a new parameter included |
| Steps.DisconnectKeepsInv | serverlib.cpp:114-134 | disconnecting keeps the invariant |
| Steps.TidyRestores | serverlib.cpp:50-77 | the clean-up leaves no petition without subscribers, and every subscriber still asked for by one that lives |
| Steps.StepKeepsInv | serverlib.cpp:18-166 | every step keeps the invariant: live petitions held by connected clients and told to all of them, filters in step with subscribers, subscribers asking, providers connected, values set and in sync, one parameter for each split name |
| Delivery.LeaveErases | serverlib.cpp:114-134 | after RemoveClient the client occurs in no set of the state, although only covered parameters are swept |
| Delivery.OnlyConnected | server.cpp:229-247 | no step writes to anyone but connected clients and the one being accepted, and none to the one leaving |
| Delivery.OthersAreUpToDate | serverlib.cpp:44-47 | a registration makes a parameter send to the new subscriber at most |
| Delivery.RegisterServesOnlyThePetitioner | serverlib.cpp:44-47 | value lines caused by a petition go to the petitioner only |
| Delivery.RepetitionIsSilent | common.cpp:156-165 | assigning the value a parameter already has writes nothing |
| Delivery.ReregisterIsSafe | serverlib.cpp:44-47 | a client that registers again with a numeric parameter stays up to date whatever follows iff it held 0 or the value is at least the margin from 0 |
| Delivery.PushesAreCurrent | common.cpp:156-165 | every pushed line carries the value the step leaves behind |
| Delivery.RelayCopies | serverlib.cpp:142-159 | noretain writes a client as many copies as it has petitions covering the name, and changes nothing |
| Delivery.DropsCommute | serverlib.cpp:57-76 | dropped petitions can be processed in any order, or at once |
| Outputs.WritesExactly | serverlib.cpp:29-166 | for every step, line and client: the line is written to the client iff the state before calls for it, case by case: announcements, values that are due, replies, relays and retractions |
| Outputs.GetAnswers | serverlib.cpp:160-164 | get is answered to the client that asks, one line with name and value for each covered parameter and no other, and changes nothing |
| Outputs.Greetings | serverlib.cpp:104-106 | a client is greeted iff it is accepted and was not yet connected |
| Lives.StepHolds | serverlib.cpp:29-36 | who holds a petition after a step: the client that registers it too, the one that unregisters it or leaves no more, and everybody else as before |
| Lives.StepLives | serverlib.cpp:50-134 | which parameters there are after a step: leaving takes those it alone provided and, like unregistering, those without other subscribers that a petition only it held covers; assigning adds its own; nothing else changes |
| Lives.StepKeeps | serverlib.cpp:18-134 | what a parameter keeps: its name, its value unless assigned, and its subscribers and providers but for the client of the step; and what a new one starts with |
| Lives.SurvivesExactly | common.cpp:104-125 | an exception escapes iff the topic does not split or text that is no number is assigned to a numeric parameter |
| Delivery.RegisterHonours | serverlib.cpp:29-48 | registering keeps every client's petitions honoured, the new one included |
| Delivery.AssignHonours | serverlib.cpp:18-27 | a parameter created later reaches everyone who asked for it |
| Delivery.DisconnectHonoursOthers | serverlib.cpp:114-134 | a client that leaves takes no parameter of the server from the others |
| Delivery.WithdrawHonoursOthers | serverlib.cpp:79-88 | a client that unregisters takes no parameter of the server from the others |
| Delivery.UnregisterHonoursItself | serverlib.cpp:79-88 | among the parameters the server still has, a client that unregisters a topic, its own or not, keeps all its petitions ask for iff nobody holds the topic or none is covered by it and by another petition of the client |
| Runs.After | server.cpp:189-248 | the invariant holds after every run |
| Runs.ShadowReflects | include/orts/common.h:38-82 | in every run a filter's entry is the line last pushed to that client since it was last registered there |
| Runs.SubscribersAreUpToDate | serverlib.cpp:29-48 | in every reachable state a subscriber last got the current value: exactly if discrete, strictly within the margin and exact at 0 if numeric |
| Runs.ValuesAreLatest | common.cpp:113-124 | a retained value is that of the latest accepted line for its topic, and has a connected provider |
| Runs.AnnouncedOnce | serverlib.cpp:36-43 | every connected client was told of every live petition exactly once since both exist |
| Runs.Silence | serverlib.cpp:114-134 | from leaving until it is accepted again a client is nowhere in the state and nothing is written to it |
| Runs.FaithfulAreHonoured | serverlib.cpp:29-48 | a client that never unregisters is subscribed to a parameter the server has iff a petition the state records for it covers it |
| Histories.ConnectedIsState | serverlib.cpp:104-116 | after every run the connected clients are those accepted that have not left |
| Histories.HoldersAreState | serverlib.cpp:29-36 | after every run a petition is held by exactly the clients that registered it last, by the events alone, and exists iff somebody holds it |
| Histories.PresentIsState | serverlib.cpp:18-134 | after every run which parameters there are, what they are called, who subscribes to them and who provides them, by the events alone |
| Histories.FaithfulGetAll | serverlib.cpp:29-48 | a client that never unregisters subscribes to a parameter iff something it registered covers it, by the events alone |
| Providers.StandsOn | serverlib.cpp:36-76 | in every run, whether the latest line to a client that covers a topic announces it, step by step from the state before: what makes it stand, and exactly when unregistering or leaving ends it |
| Providers.NeverBoth | serverlib.cpp:29-77 | no step both announces and retracts a topic to a client |
| Providers.AskedStands | serverlib.cpp:36-43 | what some live petition covers stands at every connected client while no step has retracted it |
| Providers.StarRetractsAll | serverlib.cpp:66-69 | retracting a parameter that is called `*` retracts every topic |
| Providers.DeliveryEnds | serverlib.cpp:50-88 | when somebody unregisters or leaves, the way from a provider to a subscriber ends iff the step retracts something that covers the topic, or the subscriber unregisters a held topic that covers the parameter, whatever other petitions live on |
| Providers.ProvidersReachSubscribers | Examples/RailDriver/raildriver.cpp:369-375 | after every run, the lines a provider's filter lets through take what the subscriber holds to what the two filters say; it stays within twice the margin, and exact at 0, for every continuation iff the topic stands at the provider and the subscriber is settled |
| Providers.ArrivedIsSettled | common.cpp:113-124 | after every run, when the provider has an entry and that is the value assigned last, every subscriber is settled and within the margin of it |
| Providers.ArrivedIsClose | common.cpp:113-124 | after every run, whatever came between, when the entry the provider's value left is the value assigned last, every subscriber is within twice the margin of the provider's value, and exact at 0 |
| Examples.SomebodyIsServed | server.cpp:231-238 | a run in which one client asks for everything, another provides a value, and the first holds it |
| Examples.Margins | common.cpp:147-155 | which names are numeric, with which margin |
| Examples.SomebodyIsLeftBehind | serverlib.cpp:44-47 | a run in which a client that registers twice still holds a speed of 0.15 when it is 0 |
| Examples.ThrottleIsLeftBehind | common.cpp:151-152 | a run in which the same happens with a throttle of 0.015, whose margin is 0.01 |
| Examples.SomebodyIsForgotten | serverlib.cpp:84-85 | a run in which a client loses a parameter it still asks for, by unregistering a topic that somebody else holds |
| Examples.SomebodyIsUnheard | serverlib.cpp:73-75 | a run in which a client that never unregisters is cut off, because another one unregisters `*` |
| Wire.ParseParenthesis | common.cpp:126-135 | succeeds iff the line has both kinds of parenthesis; what comes before has no `(`, and the line is that, `(`, what is inside, `)` and a rest without `)`, or, when every `)` comes first, ends with what is inside |
| Wire.PartsAre | common.cpp:126-135 | those are the parts found, and a line has no others |
| Wire.ParseInvertsRender | common.cpp:104-135 | writing a command and parsing the line gives the command back iff it is sayable |
| Wire.ParseReads | common.cpp:104-135 | a line that is not ignored has its topic in its parentheses after the name of the function, or its name and value on both sides of the first `=` |
| Wire.ClientsUnderstand | serverlib.cpp:40-75 | what the server writes parses to what it means, unless a value line carries an unsayable name |
| Framing.Connection.Handle | client.cpp:55-80 | a poll error, an end of file or a read error disconnects and leaves the buffer; nothing to read, or a read to be tried again, changes nothing; bytes are appended up to a NUL and keep the connection |
| Framing.Connection.ReadLine | client.cpp:252-262 | takes the first non-empty line of the buffer, or returns "" iff there is none |
| Framing.Connection.Drain | server.cpp:233-238 | reading until "" takes all complete lines, in order |
| Framing.Connection.Session | client.cpp:74-75 | drained after each chunk, the lines are those of the whole stream however it was cut, and the buffer is its tail |
| Framing.Resume | client.cpp:252-262 | the lines of a stream are those of a first part and then those of its tail with the rest |
| Framing.LinesAreDelimited | client.cpp:252-262 | the k-th line is the k-th non-empty stretch from break to break, and there are no more |
| Framing.NothingIsLost | client.cpp:252-262 | lines and tail together are the stream without its breaks, in order |
| Framing.ReceivedIsWhole | client.cpp:74-75 | the stream arrives whole iff it has no NUL |
| Framing.StreamReadsBack | client.cpp:46-49 | lines written one after the other are read back as they were |
| Framing.WireRoundTrip | client.cpp:46-49 | sayable commands written as lines, cut anyhow, are parsed to the same commands in the same order |
| MainLoop.Loop.AcceptClient | server.cpp:214-230 | a new client extends the run and starts an empty stream |
| MainLoop.RunUnlessOneFails | server.cpp:235-238 | commands of a connected client go on with a run iff none of them makes an exception escape after those before it |
| MainLoop.Loop.Obey | server.cpp:236 | one parsed line is one step of the run, and an exception escapes iff the command does not survive |
| MainLoop.Loop.Drain | server.cpp:234-238 | all complete lines of a client are obeyed, in order and with nothing between them, iff they go on with the run; the log only grows |
| MainLoop.Loop.ServeClient | server.cpp:233-246 | a turn adds exactly the client's complete lines to the run, and that it leaves; it is gone from connections and server iff a write failed or there was a poll error, an end of file or a read error; the turn stops short iff one of the lines makes an exception escape |
| MainLoop.Loop.ServeAll | server.cpp:231-247 | a round adds the turns of all clients, each once, in some order, with removal during iteration; afterwards exactly those are connected whose writes did not fail and who had no poll error, end of file or read error; it stops short iff the last turn begun is no run |
| Poller.PollPoll.Add | polling.cpp:77-85 | the map gains the entry; the index stays a bijection iff the descriptor was absent |
| Poller.PollPoll.Remove | polling.cpp:86-96 | the map loses the entry and every other keeps its events; the index stays a bijection iff the descriptor was present |
| Poller.PollPoll.GetEvents | polling.cpp:97-103 | the events of the descriptor's entry, or POLLERROR iff it has none |
| Poller.PollPoll.Poll | polling.cpp:104-107 | the call changes the reported events only, each in the entry it belongs to |
| Poller.ThreadWait.Add | polling.cpp:217-228 | events and waiters gain the event; the poller keeps agreeing with them iff it is not a descriptor added twice |
| Poller.ThreadWait.Remove | polling.cpp:229-237 | unknown events are ignored, so the poller's own condition is always met |
| Poller.ThreadWait.GetEvents | polling.cpp:238-247 | -1 for unknown events, 0 until the waiter is ready, then what its waiter says: for a descriptor, what the poller has |
| Waiters.StepKeepsInv | polling.cpp:248-292 | every critical section keeps the invariant |
| Waiters.OnePollPerWaiter | polling.cpp:251-263 | in every interleaving a waiter is polled at most once at a time, also across the direct path |
| Waiters.ResultsAreVerdicts | polling.cpp:285-291 | a call returns -1 iff a poll counted in its window failed, otherwise the sum, with at most one result for each waiter |
| Waiters.AnswersAre | polling.cpp:248-292 | what all calls return, from the moves alone: with a single waiter what its poll reported, with several -1 iff a report counted since the window opened was -1, else their sum |
| Waiters.AloneIsDirect | polling.cpp:251-262 | a call polls its waiter itself iff there is exactly one, when no thread is left; otherwise it goes through all of them |
| Waiters.CountedOnce | polling.cpp:268-279 | no poll is counted twice, in one call or in two |
| Waiters.CountedInAWindow | polling.cpp:269-271 | counting happens only while a window is open, and goes to that window |
| Waiters.NoneIsLost | polling.cpp:264-281 | every poll that was started is still under way or was counted, and not both |
| Waiters.LateResults | polling.cpp:248-292 | a run in which a poll started by one call, which returns 0, is counted in the next, for which no thread is started |
| Waiters.WindowsCoverAll | polling.cpp:260-288 | while a window is open each waiter has either been counted in it or has a thread that may still be |

## Left out

- Providers.ProvidersReachSubscribers: that the provider has read what was written to it is assumed, and nobody else assigns while its lines go through (`ArrivedIsClose` is free of both); it speaks of the value last pushed since the subscriber's latest registration; `ReregisterIsSafe` says when a client that registered again holds something else.
- ServerState.Server.ParseLine: says when an exception escapes but not what it leaves behind; it ends the program.
- Filters.NumericData.GetClientsToSend: floats are reals, and which text `stof` accepts is left open; rounding is not modelled.
- Framing.Connection.Handle: what the poller and `read` report is a parameter.
- MainLoop.Loop.ServeClient: a failed write to a client, at any time since its last turn, is a parameter; the bytes of written lines are not part of the log.
- Poller.PollPoll.Add: the events of an entry that was never polled are whatever the memory held; they are a parameter.
- Poller.ThreadWait.Add: for events with a waiter of their own, what that waiter does on `add` and `remove` is not modelled.
- Poller.ThreadWait.GetEvents: what a waiter of the event's own answers is a parameter.
- Waiters.ResultsAreVerdicts: a single poll reports -1 or a number of ready events; other negative results do not occur.
- Waiters.StepKeepsInv: waiters are added between calls, by the thread that polls; the `ready` flags, which are read and written without the mutex, and the destructor are not modelled.
- Liveness: that a client is eventually served or a poll eventually returns is not stated.
- Sockets, serial ports, terminal settings, Win32 handles, broadcast discovery and module launching are not modelled.
- `winwait`, `epoll_poll` and `select_poll` wrap system calls and are not modelled.
- `ParameterManager::function_call` and parameters with callbacks of the program's own are the client side; of it only what becomes of the provider's entry for the server is modelled (`Hops.Provided`).
- The per-client margin, which is stored but never read, and the parent pointers of topics are not modelled.
- The C interface, `SerialManager` and the examples are not modelled.
