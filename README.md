# The COCO socket protocol for real-world problems, in Dafny

COCO's real-world suites (toy-socket, toy-socket-biobj, rw-top-trumps-biobj and
rw-mario-gan-biobj) do not evaluate their problems in the library. The library sends each
evaluation over a TCP socket to an external evaluator server and reads the values back.
This project models that protocol and the tables around it, and proves what each side
promises.

- **Client** (`SocketCommunication`, socket_communication.c). A problem's decision vector
  becomes the line `s <suite> t <objectives|constraints> r <count> f <function>
  i <instance> d <dimension> x v1 ... vd `. The first integer-variable count values are
  written with `%d` and the rest with `%.*e` at `precision_x`. The response holds `count`
  numbers, each read by `%lf%*c%n`. The client keeps one (last message, last response)
  slot for objectives and one for constraints. It asks the server only when the new message
  differs from the one in the slot. Teardown sends `RESET`. The class
  `SocketCommunicationData` holds these fields, with the server as a function from message
  to response. A ghost log records every message sent.
- **C server** (`SocketServerC`, socket_server.in.c). The header is read by one `sscanf`
  with a fixed field order. This is modelled as a small interpreter of the `%s`, `%lu`,
  `%*c` and `%n` directives (`Scanf`). Then come `dimension` values, dispatch to the toy
  evaluator by the exact suite name, and a response of `%.16e ` tokens. Messages beginning
  with `RESET` or `SHUTDOWN` end the connection or the server. Also modelled: the command
  line, with its port truncated to `unsigned short`.
- **Python server** (`SocketServerPy`, socket_server.in.py). Each field is found by the
  first occurrence of its tag. `float()` reads x, and a count other than d is a ValueError.
  Dispatch is a substring test on the suite name. The result count is checked, and the
  responses use `{:.16e}`. Only exactly `RESET` or `SHUTDOWN`, after cutting at the first
  NUL, controls the server.
- **Toy evaluators** (`ToySocketEvaluatorC`, `ToySocketEvaluatorPy`). They hold the accepted
  (suite, function, count) table, the sums of |x| and x² with the instance offset, and the
  constraint violations on the average. Values are Dafny reals, and the C and Python
  evaluators are proved to agree.
- **Problems and suites** (`ToySocketProblem`, `RwTopTrumps`, `RwMarioGan` and the four
  `Suite*` modules). `Coco.Problem` and `Coco.Suite` are classes over arrays, as
  `coco_problem_t` and `coco_suite_t` are. The modules hold the region-of-interest tables,
  the type tags, the reference points, the default ports, dimensions and instances, and the
  instances of each year. They also hold the consistency of the suites with the evaluator
  table.
- **Experiment scripts** (`RwExampleExperiment`, `RwExperimentJmetal`). These cover the
  port of each suite family, argument parsing by prefix (the last occurrence wins), the
  batch partition `(index + batch - 1) % batches` and the algorithm dispatch of the jMetal
  script.
- **Log post-processing** (`RetrieveDataInfo`, retrieve_data_info.py). This covers the
  evaluation count of the last long line, the batch line, and the status of an out file.

The library modules are:

- `Common`: Option and Result.
- `Text`: the Python string operations used (split, join, find, lower, strip) and the
  decimal text of integers.
- `Numerals`: decimal numerals, exact `%.*e` rendering with round-half-even on the exact
  value, `strtod`/`%lf` and Python `float()` over that grammar.
- `Scanf`: `sscanf` conversions.
- `StringFacts`: lemmas about these.

The C loops (`save_response`, the server's value loop, the evaluator sums, `set_bounds`,
`coco_problem_allocate`'s fills) are methods with loop invariants. Each is proved against a
function that specifies it.

## Model

| member | source | states |
|---|---|---|
| Coco.Problem.constructor | code-experiments/src/toy_socket.c:31 | a freshly allocated problem: every vector has the size the problem was allocated with, the vectors are distinct arrays, and nothing is set beyond zeros |
| Coco.Problem.FillRegion | code-experiments/src/toy_socket.c:32-35 | after the loop every variable's region of interest is exactly [low, high]; the reference values are untouched |
| Coco.Problem.SetReference | code-experiments/src/toy_socket.c:44-64 | the optimum is marked unknown, the best parameter dropped, the ideal and nadir points are exactly the given ones, and no other field changes |
| Coco.Functions | code-experiments/src/suite_toy_socket.c:33 | a suite of n functions numbers them 1 to n |
| ToySocketProblem.ToySocketProblemAllocate | code-experiments/src/toy_socket.c:15-66 | fails with coco_error exactly when the number of objectives is neither 1 nor 2; otherwise a valid fresh problem on [-1, 1]^n with no integer variables, the socket evaluators, type "toy_socket", unknown optimum, best value 0 and, for two objectives, ideal (0, 0) and nadir (15, 15) |
| ToySocketProblem.ToySocketRegion | code-experiments/src/toy_socket.c:32-64 | every variable of a toy problem lies in [-1, 1], every best value is 0, and the ideal point lies strictly below the nadir point in both objectives |
| ToySocketEvaluatorC.Objectives | code-experiments/rw-problems/toy_socket/toy_socket_evaluator.c:12-60 | accepts exactly toy-socket with one objective or toy-socket-biobj with two, for functions 1 and 2; gives as many values as objectives, each at least 1e-5 times the instance; any other suite and count combination fails on the objective count |
| ToySocketEvaluatorC.Average | code-experiments/rw-problems/toy_socket/toy_socket_evaluator.c:74-79 | the average the violations are measured on is never negative |
| ToySocketEvaluatorC.BelowViolation | code-experiments/rw-problems/toy_socket/toy_socket_evaluator.c:84 | the violation is never negative and is positive exactly when the average is below 0.2 |
| ToySocketEvaluatorC.AboveViolation | code-experiments/rw-problems/toy_socket/toy_socket_evaluator.c:86-90 | the violation is never negative and is positive exactly when the average is above 0.5 |
| ToySocketEvaluatorC.Constraints | code-experiments/rw-problems/toy_socket/toy_socket_evaluator.c:68-97 | succeeds exactly for a non-empty x and (toy-socket, function 1, two constraints) or (toy-socket-biobj, function 2, one constraint); an empty x fails the dimension assertion; every violation is non-negative, and the two toy-socket violations are never both positive |
| ToySocketEvaluatorC.AddAbs | code-experiments/rw-problems/toy_socket/toy_socket_evaluator.c:22-24 | the accumulating loop ends with the start value plus the sum of the absolute values of the first n entries |
| ToySocketEvaluatorC.AddSquares | code-experiments/rw-problems/toy_socket/toy_socket_evaluator.c:28-30 | the accumulating loop ends with the start value plus the sum of squares of the first n entries |
| ToySocketEvaluatorC.EvaluateObjectives | code-experiments/rw-problems/toy_socket/toy_socket_evaluator.c:12-60 | the evaluator fails exactly when Objectives does, with the same reason; on success the first `count` cells hold Objectives' values; it never writes past `count`, and on failure it writes nothing |
| ToySocketEvaluatorC.EvaluateConstraints | code-experiments/rw-problems/toy_socket/toy_socket_evaluator.c:68-97 | the evaluator fails exactly when Constraints does, with the same reason; on success the first `count` cells hold Constraints' violations; nothing else is written |
| ToySocketEvaluatorPy.Objectives | code-experiments/rw-problems/toy_socket/toy_socket_evaluator.py:7-28 | succeeds exactly for one of the two toy suites and function 1 or 2; one value for toy-socket and two for toy-socket-biobj, each at least 1e-5 times the instance; any other suite raises "not supported" |
| ToySocketEvaluatorPy.Constraints | code-experiments/rw-problems/toy_socket/toy_socket_evaluator.py:31-49 | succeeds exactly for a non-empty x and (toy-socket, 1) or (toy-socket-biobj, 2); an empty x raises a division by zero before the suite is looked at; two non-negative violations for toy-socket and one for toy-socket-biobj |
| ToySocketEvaluatorPy.ObjectivesAgree | code-experiments/rw-problems/toy_socket/toy_socket_evaluator.py:7-28 | the Python and C evaluators agree: every C result is the Python result, and a Python result of the requested length is the C result |
| ToySocketEvaluatorPy.ConstraintsAgree | code-experiments/rw-problems/toy_socket/toy_socket_evaluator.py:31-49 | for a non-empty x, the Python and C violations agree in both directions, as for the objectives |
| ToySocketEvaluatorPy.LongerNameRejected | code-experiments/rw-problems/toy_socket/toy_socket_evaluator.py:9-28 | a suite name that only starts with "toy-socket" (other than toy-socket-biobj) is rejected, for objectives and for constraints |
| SuiteToySocket.Initialize | code-experiments/src/suite_toy_socket.c:28-38 | the suite "toy-socket" with functions 1 and 2, dimensions 2 and 30, default instances "instances: 1" and no known optima; its socket client uses port 7000 unless the options name another, the default host unless they name one, and has sent nothing |
| SuiteToySocket.InstancesByYear | code-experiments/src/suite_toy_socket.c:43-51 | only year 0 has instances, and they are the suite's default instances; any other year fails with coco_error |
| SuiteToySocket.GetProblem | code-experiments/src/suite_toy_socket.c:62-87 | a valid fresh single-objective toy problem for the selected function, dimension and instance, with two constraints for function 1 and none otherwise, and the suite's function and instance recorded |
| SuiteToySocket.EvaluatorServesSuite | code-experiments/src/suite_toy_socket.c:76-80 | for every function and dimension of the suite, the C server's evaluator computes objectives exactly for the problem's one objective, and constraints exactly for the problem's constraint count when it has constraints |
| SuiteToySocketBiobj.Initialize | code-experiments/src/suite_toy_socket_biobj.c:25-35 | as for toy-socket, with the name "toy-socket-biobj" |
| SuiteToySocketBiobj.InstancesByYear | code-experiments/src/suite_toy_socket_biobj.c:40-48 | only year 0 has instances, and they are the suite's default instances |
| SuiteToySocketBiobj.GetProblem | code-experiments/src/suite_toy_socket_biobj.c:59-84 | a valid fresh bi-objective toy problem, with one constraint for function 2 and none otherwise |
| SuiteToySocketBiobj.EvaluatorServesSuite | code-experiments/src/suite_toy_socket_biobj.c:73-77 | for every function and dimension of the suite, the evaluator computes objectives exactly for the problem's two objectives, and constraints exactly for its constraint count when it has constraints |
| RwTopTrumps.Instance16PassesGuard | code-experiments/src/rw_top_trumps.c:47-53 | instance 16 passes the guard as written, yet neither table has a 16th row |
| RwTopTrumps.GuardAsWrittenElsewhere | code-experiments/src/rw_top_trumps.c:47 | for every other instance that fits a size_t, including 0 (whose instance - 1 wraps around), the guard as written rejects exactly the instances without a row |
| RwTopTrumps.Region | code-experiments/src/rw_top_trumps.c:51-54 | variable i gets the range of attribute i % 4 |
| RwTopTrumps.RegionOfWholeCards | code-experiments/src/rw_top_trumps.c:9-10 | a region of 4m variables is one row of four attribute ranges repeated for each of m cards |
| RwTopTrumps.RangesOrdered | code-experiments/src/rw_top_trumps.c:11-44 | for every instance, each variable's low bound is at most its high bound; the fourth attribute of instance 15 is the one range that is a single value |
| RwTopTrumps.TypeOf | code-experiments/src/rw_top_trumps.c:85-95 | every problem gets one of the two grouping types, "direct" or "simulated" |
| RwTopTrumps.SetBounds | code-experiments/src/rw_top_trumps.c:6-55 | with the guard as intended: fails exactly for an instance without a row; otherwise every variable's range is the instance's attribute range at position i % 4, and the reference values are untouched |
| RwTopTrumps.TopTrumpsProblemAllocate | code-experiments/src/rw_top_trumps.c:60-118 | fails on the objective count first and then on the instance; otherwise a valid fresh problem with the instance's ranges, every variable an integer, the socket evaluators, the grouping type (which replaces "rw-top-trumps"), and reference values 0 and, for two objectives, (0, 0) to (1, 1) |
| SuiteRwTopTrumpsBiobj.Initialize | code-experiments/src/suite_rw_top_trumps_biobj.c:15-25 | the suite "rw-top-trumps-biobj" with three functions, decks of 88, 128, 168 and 208 variables, instances 1-15 and port 7000 by default |
| SuiteRwTopTrumpsBiobj.InstancesByYear | code-experiments/src/suite_rw_top_trumps_biobj.c:30-38 | only year 0 has instances, and its one instance has a row in the tables |
| SuiteRwTopTrumpsBiobj.GetProblem | code-experiments/src/suite_rw_top_trumps_biobj.c:50-72 | fails exactly for an instance the tables have no row for; otherwise the bi-objective top trumps problem with the suite's function and instance recorded |
| SuiteRwTopTrumpsBiobj.ProblemsAreDecks | code-experiments/src/suite_rw_top_trumps_biobj.c:18-20 | every problem of the suite is a whole deck: its ranges are the instance's row once per card, every variable is an integer, there are no constraints, and only function 1 is direct |
| RwMarioGan.SingleObjectiveTypes | code-experiments/src/rw_mario_gan.c:41-57 | single-objective functions 1-10 are direct and 11-28 simulated; even functions play underground; in each run of six simulated functions the level is concatenated for two; functions after 28 get no type |
| RwMarioGan.BiObjectiveTypes | code-experiments/src/rw_mario_gan.c:58-69 | the bi-objective functions come in pairs: pair 1 is direct underground and pairs 2-5 are simulated, alternating overworld and underground, single for pairs 2-3 and concatenated after; functions after 10 get no type |
| RwMarioGan.MarioGanProblemAllocate | code-experiments/src/rw_mario_gan.c:14-91 | fails exactly when the number of objectives is neither 1 nor 2; otherwise a valid fresh problem on [-1, 1]^n with no integer variables, the objective evaluator only, the grouping type, and reference values 0 and, for two objectives, (0, 0) to (1, 1) |
| SuiteRwMarioGanBiobj.Initialize | code-experiments/src/suite_rw_mario_gan_biobj.c:22-32 | the suite "rw-mario-gan-biobj" with ten functions, dimensions 10 to 40, instances 1-7 and port 7200 by default |
| SuiteRwMarioGanBiobj.InstancesByYear | code-experiments/src/suite_rw_mario_gan_biobj.c:37-45 | only year 0 has instances, namely "1"; any other year fails with coco_error |
| SuiteRwMarioGanBiobj.GetProblem | code-experiments/src/suite_rw_mario_gan_biobj.c:56-79 | the bi-objective Mario GAN problem with the suite's function and instance recorded |
| SuiteRwMarioGanBiobj.ProblemsGrouped | code-experiments/src/suite_rw_mario_gan_biobj.c:27 | every function of the suite has a type; consecutive odd and even functions share it, functions two apart do not; no problem has constraints or a constraint evaluator |
| SocketCommunication.PrecisionX | code-experiments/src/socket_communication.c:86-93 | the precision is always in 1..32; a precision_x option in that range is used as given, and any precision other than the default 8 is one the option gave |
| SocketCommunication.Lookup | code-experiments/src/socket_communication.c:267-273 | the cache test: after a lookup the slot holds the new message, whether it was sent or not; LookupRoundTrip and LookupTwice state when the server is asked |
| SocketCommunication.LookupRoundTrip | code-experiments/src/socket_communication.c:267-273 | the server is asked exactly when the new message differs from the stored one; then exactly one write, the message with its terminating NUL, and the stored response becomes the server's reply cut at its first NUL; an equal message leaves the slot unchanged |
| SocketCommunication.LookupTwice | code-experiments/src/socket_communication.c:267-273 | two evaluations in a row with the same message ask the server at most once, and the second one reads the response the first one stored |
| SocketCommunication.FirstLookupAsks | code-experiments/src/socket_communication.c:135-138 | slots start as empty strings and no request is empty, so the first evaluation of each kind always asks the server |
| SocketCommunication.RequestTokens | code-experiments/src/socket_communication.c:168-180 | a request whose suite name and evaluation type hold no space splits at single spaces into the 13 header tokens, then one token per variable, then one empty part: it ends with a space |
| SocketCommunication.ValueNumber | code-experiments/src/socket_communication.c:175-178 | a value token is the text of a well-formed number; for an integer variable its value is the converted integer, for any other the value rounded to precision digits after the point |
| SocketCommunication.ValueTokenNoSpace | code-experiments/src/socket_communication.c:175-178 | value tokens are never empty and never contain a space, so a request keeps one token per variable |
| SocketCommunication.ValueTokenReadsBack | code-experiments/src/socket_communication.c:175-178 | Python's int() reads an integer token back as the converted integer, and float() reads a %e token back as the rounded value |
| SocketCommunication.ReadValue | code-experiments/src/socket_communication.c:198 | the count %n stores after a number and one character never runs past the input |
| SocketCommunication.ReadValues | code-experiments/src/socket_communication.c:197-204 | the loop as written, with the count a call without %n leaves over: on success, exactly the expected number of values |
| SocketCommunication.DecodeResponse | code-experiments/src/socket_communication.c:183-190 | the reading the documented format describes, every value followed by one delimiter: on success, exactly the expected number of values |
| SocketCommunication.ReadValuesAgrees | code-experiments/src/socket_communication.c:191-205 | wherever the documented reading succeeds, the loop as written reads the same values, whatever count it starts with |
| SocketCommunication.DecodeRendered | code-experiments/src/socket_communication.c:183-205 | reading n values from a response of at least n space-separated number tokens gives the first n of their values, in order |
| SocketCommunication.ReadValuesRendered | code-experiments/src/socket_communication.c:197-204 | the loop as written reads the first n values of such a response as well |
| SocketCommunication.DecodeTooFew | code-experiments/src/socket_communication.c:197-202 | a response with fewer number tokens than expected values is a failure |
| SocketCommunication.ShortResponseReadsThree | code-experiments/src/socket_communication.c:197-204 | for "1 234" and three expected values the loop as written reads 1, 234 and 4, while the documented reading fails |
| SocketCommunication.ReadValuesInto | code-experiments/src/socket_communication.c:197-204 | the in-place loop stops with exactly the outcome ReadValues gives, and on success the first n cells hold its values in order |
| SocketCommunication.SocketCommunicationData.constructor | code-experiments/src/socket_communication.c:68-140 | host name and port are the options or the defaults 127.0.0.1 and the suite's port, the precision is PrecisionX of the option, all four stored strings are empty and nothing has been sent |
| SocketCommunication.SocketCommunicationData.ValuesSent | code-experiments/src/socket_communication.c:174-180 | what a reader of the request gets back: the first number_of_integer_variables values as converted integers, the others rounded by %.*e at the client's precision |
| SocketCommunication.SocketCommunicationData.ValueTokensRender | code-experiments/src/socket_communication.c:174-180 | the value tokens of a request are the texts of numbers whose values are ValuesSent |
| SocketCommunication.SocketCommunicationData.CreateMessage | code-experiments/src/socket_communication.c:154-181 | the loop builds the request text: the header of the problem's suite, function, instance and dimension, then one token per variable |
| SocketCommunication.SocketCommunicationData.SaveResponse | code-experiments/src/socket_communication.c:191-205 | the expected values are read into the array as the loop as written reads them, or the reason it stops (the program exits) |
| SocketCommunication.SocketCommunicationData.EvaluateFunction | code-experiments/src/socket_communication.c:255-276 | the objectives slot and the bytes sent change exactly as Lookup says for the objectives message; the constraints slot is untouched; y holds the values read from the stored response |
| SocketCommunication.SocketCommunicationData.EvaluateConstraint | code-experiments/src/socket_communication.c:281-303 | the same with the constraints slot and message; the objectives slot is untouched |
| SocketCommunication.SocketCommunicationData.Finalize | code-experiments/src/socket_communication.c:62-64 | the client writes RESET with its terminating NUL, and the stored messages and responses stay as they were |
| SocketServerC.ReadField | code-experiments/rw-problems/socket_server.in.c:84 | one "<tag> %s" or "<tag> %lu" of the header format: a stored value has the kind of the conversion, consumes input, and leaves no white space in front of the rest |
| SocketServerC.ScanFields | code-experiments/rw-problems/socket_server.in.c:84 | the fields are stored in order, each of the kind its conversion gives, and the scan completes exactly when all fields are stored |
| SocketServerC.ScanHeader | code-experiments/rw-problems/socket_server.in.c:84-85 | sscanf returns EOF or the number of fields stored, at most 6, two words then four numbers; %n stores a count only after all six fields, "x" and one more character |
| SocketServerC.ReadHeader | code-experiments/rw-problems/socket_server.in.c:84-89 | the check as written: the header is accepted exactly when sscanf returns 6, with whatever %n stored; otherwise the server exits reporting that return value |
| SocketServerC.ReadHeaderChecked | code-experiments/rw-problems/socket_server.in.c:84-89 | the intended check: accepted exactly when the check as written accepts and %n stored a count, which lies within the message |
| SocketServerC.HeaderFieldTokens | code-experiments/rw-problems/socket_server.in.c:84 | the 13 tokens a client writes for a header are the six tagged fields of the server's format followed by "x" |
| SocketServerC.ReadRequestHeader | code-experiments/rw-problems/socket_server.in.c:84-89 | every readable header a client writes (words without white space, numbers that fit an unsigned long) is read back as that header, and %n points exactly at the first value token |
| SocketServerC.HeaderWithoutX | code-experiments/rw-problems/socket_server.in.c:84-89 | a message of the six fields and no "x" passes the check as written with no count stored, and fails the intended check |
| SocketServerC.DecisionValues | code-experiments/rw-problems/socket_server.in.c:90-98 | dimension 0 reads nothing; a positive dimension with no count stored is an indeterminate offset; otherwise the values are the ones the client's reading loop gets from where %n points |
| SocketServerC.Evaluate | code-experiments/rw-problems/socket_server.in.c:101-129 | a suite other than the two toy suites is not supported; "objectives" and "constraints" go to the toy evaluators with the header's count, function and instance; any other type is not supported; a success has exactly the requested number of values |
| SocketServerC.ResponseTokens | code-experiments/rw-problems/socket_server.in.c:135-138 | one token per value, each the value in %e with 16 digits after the point |
| SocketServerC.Reply | code-experiments/rw-problems/socket_server.in.c:66-142 | evaluate_message with the intended header check: a message is answered only when that check accepts its header, and an unreadable header is the reason the server exits; ReplyAgrees, ServesRequest and FailureEndsServer state the rest |
| SocketServerC.ReplyAsWritten | code-experiments/rw-problems/socket_server.in.c:66-142 | evaluate_message as written: a message is answered only when sscanf assigns all six header fields, and otherwise the header failure ends the server; ReplyWithoutX and ReplyAgrees compare it with Reply |
| SocketServerC.EvaluateMessage | code-experiments/rw-problems/socket_server.in.c:66-142 | the method's answer is Reply: the header with the intended check, the values, the evaluation and the response, or the reason the server exits |
| SocketServerC.EvaluateRequest | code-experiments/rw-problems/socket_server.in.c:90-141 | after the header the values are read into an array, evaluated with the chosen evaluator and written out, with the outcome ReplyFrom gives |
| SocketServerC.WriteResponse | code-experiments/rw-problems/socket_server.in.c:133-138 | the loop writes every value as a response token followed by a space, in order |
| SocketServerC.ReplyAgrees | code-experiments/rw-problems/socket_server.in.c:84-89 | the check as written and the intended check answer every message alike unless the first accepts a header the second rejects |
| SocketServerC.ReplyWithoutX | code-experiments/rw-problems/socket_server.in.c:84-89 | for a header without "x" and dimension 0 the server as written answers with an evaluation, while the intended check rejects the message with sscanf's count 6 |
| SocketServerC.ServesRequest | code-experiments/rw-problems/socket_server.in.c:66-142 | a request a client writes for a readable header and rendered values is answered with the evaluation of exactly those values |
| SocketServerC.ResponseReadsBack | code-experiments/rw-problems/socket_server.in.c:135-138 | the client's reading loop reads every value of a response back, each rounded to 16 digits after the point |
| SocketServerC.Session | code-experiments/rw-problems/socket_server.in.c:285-318 | a connection gets at most one response per message read |
| SocketServerC.Serve | code-experiments/rw-problems/socket_server.in.c:278-320 | the server never ends on a closed connection: after a RESET it accepts the next one |
| SocketServerC.ServeConnection | code-experiments/rw-problems/socket_server.in.c:285-318 | the inner loop sends and ends exactly as Session says |
| SocketServerC.SocketServerStart | code-experiments/rw-problems/socket_server.in.c:278-320 | the outer loop sends and ends exactly as Serve says, with Reply answering |
| SocketServerC.ResetSkipsConnection | code-experiments/rw-problems/socket_server.in.c:296-300 | a message starting with RESET closes the connection: nothing after it on that connection is read, and serving goes on with the next connection |
| SocketServerC.ShutdownStopsServer | code-experiments/rw-problems/socket_server.in.c:303-307 | a message starting with SHUTDOWN stops the server: nothing is sent and no later connection is served |
| SocketServerC.FailureEndsServer | code-experiments/rw-problems/socket_server.in.c:309-310 | a message that cannot be answered ends the server with that error and nothing sent |
| SocketServerC.SessionAnswersAll | code-experiments/rw-problems/socket_server.in.c:309-317 | a connection whose messages are all answerable gets one response per message, in order, each with its NUL, and the server goes on reading |
| SocketServerC.Strtol | code-experiments/rw-problems/socket_server.in.c:331 | the port argument is converted to a value in the range of a long |
| SocketServerC.PortOf | code-experiments/rw-problems/socket_server.in.c:331-332 | the port is below 2^16 |
| SocketServerC.PortOfDecimal | code-experiments/rw-problems/socket_server.in.c:331-332 | a decimal port argument up to the largest long is read back modulo 2^16, so a port below 2^16 as itself |
| SocketServerC.ParseArguments | code-experiments/rw-problems/socket_server.in.c:324-346 | the server starts exactly when it is given one or two options; the port comes from the first, and it is silent exactly when the second is "silent" |
| SocketServerPy.TokenIndex | code-experiments/rw-problems/socket_server.in.py:47-53 | msg.index: the position of the tag's first occurrence, or the length when the tag is missing, which happens exactly when the tag is not a token |
| SocketServerPy.TokenIndexFirst | code-experiments/rw-problems/socket_server.in.py:47-53 | no earlier token equals the tag |
| SocketServerPy.FieldAfter | code-experiments/rw-problems/socket_server.in.py:47-48 | the lookup fails with the missing tag exactly when the tag is not a token; a success is the token right after the tag's first occurrence |
| SocketServerPy.IntAfter | code-experiments/rw-problems/socket_server.in.py:49-52 | an integer field is the token after its tag as int() reads it; a failed lookup fails the same way |
| SocketServerPy.Floats | code-experiments/rw-problems/socket_server.in.py:53 | at most one value per token: empty tokens are skipped and the first token float() cannot read raises |
| SocketServerPy.XValues | code-experiments/rw-problems/socket_server.in.py:53 | without an "x" token the values cannot be read |
| SocketServerPy.ParseMessage | code-experiments/rw-problems/socket_server.in.py:45-56 | a parsed request always has exactly as many values as its dimension |
| SocketServerPy.FieldOfFirstTag | code-experiments/rw-problems/socket_server.in.py:47-52 | a field is the token after the first occurrence of its tag, whatever comes before (without the tag) or after |
| SocketServerPy.TagAtEnd | code-experiments/rw-problems/socket_server.in.py:47-52 | a tag that is the last token has no value and raises |
| SocketServerPy.TrailingSpaceIgnored | code-experiments/rw-problems/socket_server.in.py:53 | the empty token that a trailing space leaves adds no value |
| SocketServerPy.PyFloatNumber | code-experiments/rw-problems/socket_server.in.py:53 | float() reads every number a client writes back as that number, and the token holds no space |
| SocketServerPy.FloatsRendered | code-experiments/rw-problems/socket_server.in.py:53 | the value tokens of a client's request read back as exactly the values they render, in order |
| SocketServerPy.Evaluate | code-experiments/rw-problems/socket_server.in.py:58-86 | every suite whose name does not contain "toy-socket" is not supported; a success has exactly r values |
| SocketServerPy.Reply | code-experiments/rw-problems/socket_server.in.py:44-92 | evaluate_message: a message is answered only when it parses and its evaluation succeeds, and a parse failure is the exception that ends the server; ServesRequest and FailureEndsServer state the rest |
| SocketServerPy.EvaluateMessage | code-experiments/rw-problems/socket_server.in.py:38-95 | the method's answer is Reply: the request parsed, evaluated and written as the response, or the exception raised |
| SocketServerPy.BuildResponse | code-experiments/rw-problems/socket_server.in.py:88-92 | the accumulated response writes every value with 16 digits after the point and a space, as the C server does |
| SocketServerPy.ParseRequest | code-experiments/rw-problems/socket_server.in.py:45-56 | a request a client writes for a header whose words hold no space and are not tags is parsed back to that header and exactly the values its tokens render |
| SocketServerPy.ServesRequest | code-experiments/rw-problems/socket_server.in.py:38-92 | such a request is answered with the evaluation of exactly those values, or with the evaluator's exception |
| SocketServerPy.ContainingNameReachesEvaluator | code-experiments/rw-problems/socket_server.in.py:61-63 | the suite test is a substring test: a longer name that contains "toy-socket" gets past it and is then refused by the evaluator |
| SocketServerPy.Session | code-experiments/rw-problems/socket_server.in.py:124-144 | a connection gets at most one response per message read |
| SocketServerPy.Serve | code-experiments/rw-problems/socket_server.in.py:116-144 | the server never ends on a closed connection: after a RESET it accepts the next one |
| SocketServerPy.ServeConnection | code-experiments/rw-problems/socket_server.in.py:124-144 | the inner loop sends and ends exactly as Session says |
| SocketServerPy.SocketServerStart | code-experiments/rw-problems/socket_server.in.py:98-153 | the outer loop sends and ends exactly as Serve says, with Reply answering |
| SocketServerPy.ResetSkipsConnection | code-experiments/rw-problems/socket_server.in.py:132-134 | the message RESET closes the connection; nothing after it on that connection is read, and serving goes on with the next connection |
| SocketServerPy.ShutdownStopsServer | code-experiments/rw-problems/socket_server.in.py:136-138 | the message SHUTDOWN stops the server: nothing is sent and no later connection is served |
| SocketServerPy.ResetMustBeExact | code-experiments/rw-problems/socket_server.in.py:132-138 | only the exact words are commands: "RESET now" is parsed as a request, has no "s" tag and ends the server, while the C server closes the connection on it |
| SocketServerPy.ClosedPeerEndsServer | code-experiments/rw-problems/socket_server.in.py:126-140 | a client that closes its end makes recv return the empty string, which is parsed, has no "s" tag and ends the server with that exception |
| SocketServerPy.FailureEndsServer | code-experiments/rw-problems/socket_server.in.py:140 | a message that cannot be answered raises, and the exception ends the server with nothing sent |
| SocketServerPy.ParseArguments | code-experiments/rw-problems/socket_server.in.py:156-169 | the usage error happens exactly when the script is not given one or two options; it starts exactly when int() reads the port, and it is silent exactly when the second option is "silent" |
| SocketServerPy.PortOfDecimal | code-experiments/rw-problems/socket_server.in.py:160 | every decimal port is read as itself, while the C server reads any port from 2^16 up to the largest long as a different one |
| RwExampleExperiment.SocketPort | code-experiments/build/python/rw_example_experiment.py:37-47 | any port chosen is the start port plus the batch, or that plus 200 |
| RwExampleExperiment.Family | code-experiments/build/python/rw_example_experiment.py:42-47 | there are three cases: no evaluator, a C evaluator, or a Python evaluator |
| RwExampleExperiment.PortsSeparateRuns | code-experiments/build/python/rw_example_experiment.py:37-47 | for socket suites and batches below 200, two runs share a port exactly when their evaluators are in the same family and their batches are equal |
| RwExampleExperiment.SuitePortsOffsetByBatch | code-experiments/build/python/rw_example_experiment.py:37-47 | with start port 7000, batch b of each of the four socket suites uses the suite's own default port plus b |
| RwExampleExperiment.Apply | code-experiments/build/python/rw_example_experiment.py:64-79 | one argument: one with no known key changes no setting, and only the keys read by float() or int() can raise |
| RwExampleExperiment.Parse | code-experiments/build/python/rw_example_experiment.py:50-94 | parse_arguments: argv[0] is skipped, so the script name alone gives the defaults and the port for them; LastBatchWins and ApplyAllAppend state how later arguments override earlier ones |
| RwExampleExperiment.ParseArguments | code-experiments/build/python/rw_example_experiment.py:50-94 | the loop over argv[1:] gives what Parse gives: the defaults, each known key applied from left to right, then the port; an unreadable number raises |
| RwExampleExperiment.ApplyAllAppend | code-experiments/build/python/rw_example_experiment.py:63-79 | parsing a concatenation of arguments is parsing the first part, then going on from its settings; an error in the first part stops the parse |
| RwExampleExperiment.ApplyBatch | code-experiments/build/python/rw_example_experiment.py:76-77 | a batch= argument sets the batch to the integer after the key, or raises when int() cannot read it |
| RwExampleExperiment.LastBatchWins | code-experiments/build/python/rw_example_experiment.py:63-79 | the last batch= argument decides the batch, whatever comes before it |
| RwExampleExperiment.DocumentedSuiteKeyIgnored | code-experiments/build/python/rw_example_experiment.py:19-21 | the documented example's key suite_name= is not one the parser knows: the run stays on toy-socket, batch 1 of 4, on port 7001 |
| RwExampleExperiment.BatchOf | code-experiments/build/python/rw_example_experiment.py:126 | the batch a problem belongs to lies in 1..batches |
| RwExampleExperiment.BatchesPartition | code-experiments/build/python/rw_example_experiment.py:124-127 | the batches 1..batches partition the problems: each problem is run in exactly one batch |
| RwExampleExperiment.BatchPeriodic | code-experiments/build/python/rw_example_experiment.py:126 | batch numbers that differ by a multiple of batches select the same problems |
| RwExampleExperiment.Selection | code-experiments/build/python/rw_example_experiment.py:124-127 | with zero batches the loop raises exactly when the suite has a problem; otherwise it runs only problems of the suite |
| RwExampleExperiment.SelectionMembers | code-experiments/build/python/rw_example_experiment.py:124-127 | a problem is run exactly when it lies in the suite and in the batch, and problems are run in increasing order |
| RwExampleExperiment.SelectProblems | code-experiments/build/python/rw_example_experiment.py:124-127 | the loop selects what Selection gives |
| RwExampleExperiment.Widened | code-experiments/build/python/rw_example_experiment.py:133-136 | the bounds of the integer variables move by the given amount; the other bounds stay as they are |
| RwExampleExperiment.SolverBoxWidens | code-experiments/build/python/rw_example_experiment.py:130-136 | the solver's box of every integer variable is exactly one unit wider than its range and has the same centre; a continuous variable keeps its range |
| RwExperimentJmetal.Apply | code-experiments/examples/rw-jmetalpy/rw_experiment_jmetal.py:69-87 | one argument: one with no known key (algorithm= included) changes no setting, and only the keys read by float() or int() can raise |
| RwExperimentJmetal.Parse | code-experiments/examples/rw-jmetalpy/rw_experiment_jmetal.py:56-104 | parse_arguments: no arguments give the defaults; ScriptNameIsRead and LastAlgorithmWins state that argv[0] is read and the last occurrence wins |
| RwExperimentJmetal.ParseArguments | code-experiments/examples/rw-jmetalpy/rw_experiment_jmetal.py:58-104 | the loop over all of argv gives what Parse gives: the defaults, with every known key applied from left to right (algorithm= last), then the port as the example experiment chooses it |
| RwExperimentJmetal.ApplyAllAppend | code-experiments/examples/rw-jmetalpy/rw_experiment_jmetal.py:70-88 | parsing a concatenation is parsing the first part, then going on from its settings |
| RwExperimentJmetal.ApplyAlgorithm | code-experiments/examples/rw-jmetalpy/rw_experiment_jmetal.py:87-88 | an algorithm= argument sets the algorithm name to the text after the key |
| RwExperimentJmetal.LastAlgorithmWins | code-experiments/examples/rw-jmetalpy/rw_experiment_jmetal.py:70-88 | the last algorithm= argument names the algorithm, whatever comes before it |
| RwExperimentJmetal.ScriptNameIsRead | code-experiments/examples/rw-jmetalpy/rw_experiment_jmetal.py:70 | this script reads argv[0] as an argument as well: an argv holding only batch=N selects batch N here, while the example experiment stays at its defaults |
| RwExperimentJmetal.Configure | code-experiments/examples/rw-jmetalpy/rw_experiment_jmetal.py:140-169 | an algorithm is configured exactly for NSGA-II (or NSGAII) on a non-empty problem, GDE3, or RS; any other name raises; each stops after budget_multiplier times dimension evaluations, and NSGA-II's mutation probability is one over the dimension |
| RwExperimentJmetal.Plan | code-experiments/examples/rw-jmetalpy/rw_experiment_jmetal.py:131-170 | the runs of run_experiment: at most one per problem, each for a problem of the suite and seeded with 69; PlanRunsBatch states which ones |
| RwExperimentJmetal.PlanRunsBatch | code-experiments/examples/rw-jmetalpy/rw_experiment_jmetal.py:131-170 | the runs are exactly the problems the batch selects, in order, each seeded with 69 and run with the algorithm the name selects for its dimension |
| RwExperimentJmetal.UnsupportedFailsIffSelected | code-experiments/examples/rw-jmetalpy/rw_experiment_jmetal.py:131-169 | an unknown algorithm name raises exactly when the batch has a problem to run, and otherwise nothing is run |
| RwExperimentJmetal.PlanFailureFinal | code-experiments/examples/rw-jmetalpy/rw_experiment_jmetal.py:131-169 | the first exception ends the experiment: if a prefix of the suite fails, the whole run fails the same way |
| RwExperimentJmetal.RunExperiment | code-experiments/examples/rw-jmetalpy/rw_experiment_jmetal.py:107-171 | the loop over the suite's problems gives what Plan gives |
| RetrieveDataInfo.ReadInt | experiment_data/retrieve_data_info.py:17 | int() of a text succeeds exactly when the model's int() (Text.PyInt) reads it as an integer, with that value, and raises ValueError otherwise |
| RetrieveDataInfo.GetEvaluationNum | experiment_data/retrieve_data_info.py:9-21 | with no line longer than 10 characters the count is 0; otherwise it is the first space-separated token of the last such line, read by int(), or the ValueError that stops the script |
| RetrieveDataInfo.FindBatch | experiment_data/retrieve_data_info.py:49-58 | the first line that is a job line or a single word without '/' decides the batch, and the iteration has consumed exactly the lines up to it; with no such line the batch stays -1 and the whole file is consumed |
| RetrieveDataInfo.ReadOutFile | experiment_data/retrieve_data_info.py:49-96 | the batch comes from the first batch line, and the status, by the corrected Status, from the text after that line, which is all f.read() still returns; with no batch line the status is that of the empty text |
| RetrieveDataInfo.StatusAsWritten | experiment_data/retrieve_data_info.py:86-96 | the status as written: TIME LIMIT gives the cancelled status, and no status is recorded exactly when there is no TIME LIMIT, no "error" after position 0 and no stopped server; ErrorAtEndAsWritten and StatusAgreesWithNewline compare it with Status |
| RetrieveDataInfo.Status | experiment_data/retrieve_data_info.py:86-96 | the corrected status, with the same cancelled and no-status cases; ErrorStatus, TimeLimitFirst and ErrorAtStartHidden state the error message it reports |
| RetrieveDataInfo.Unquoted | experiment_data/retrieve_data_info.py:93-94 | the status holds no quote of either kind and is no longer than the text it came from |
| RetrieveDataInfo.MessageEnd | experiment_data/retrieve_data_info.py:91-92 | the error message ends within the contents, at most 200 characters after the error |
| RetrieveDataInfo.StatusAgreesWithNewline | experiment_data/retrieve_data_info.py:87-96 | the status as written and the intended status agree whenever a newline follows the first error |
| RetrieveDataInfo.ErrorAtEndAsWritten | experiment_data/retrieve_data_info.py:91-94 | when no newline follows the error, the status as written is the empty string, while the intended status is a non-empty message |
| RetrieveDataInfo.ErrorStatus | experiment_data/retrieve_data_info.py:87-94 | a reported error is the text from the first "error" (in any case) to the next newline, 200 characters on or the end of the contents, whichever comes first, without quotes; it holds no newline, is at most 200 characters long and is never empty |
| RetrieveDataInfo.TimeLimitFirst | experiment_data/retrieve_data_info.py:88-89 | a TIME LIMIT anywhere in the contents is reported as a cancellation, whatever else the file says |
| RetrieveDataInfo.ErrorAtStartHidden | experiment_data/retrieve_data_info.py:90 | contents that start with "error" report no error at all, not even a later one; only a stopped server still counts as success |
| Numerals.ToSci | code-experiments/src/socket_communication.c:178 | %.pe writes p + 1 significant digits, with a minus sign exactly when the value is negative; ToSciValue states the value of those digits |
| Numerals.ToSciValue | code-experiments/src/socket_communication.c:178 | what %.pe writes is v rounded to p + 1 significant digits: 0 is written as 0; otherwise the leading digit is not 0, the written value lies in [10^e, 10^(e+1)) for its exponent e, and it differs from v by at most half a unit of its last digit |
| Numerals.FormatE | code-experiments/rw-problems/socket_server.in.c:136 | what %.*e writes is a numeral: sign, digits, one point and an exponent, without white space |
| Numerals.ScanRenderSci | code-experiments/src/socket_communication.c:198 | %lf reads a rendered number back as exactly its value, and stops in front of the first character that is not a digit |
| Numerals.ScanIntToString | code-experiments/rw-problems/socket_server.in.c:93 | %lf reads a token written by %d as that integer |
| Numerals.ScanDecimal | code-experiments/src/socket_communication.c:198 | strtod's reading of a number at the start of the text: a successful reading consumes at least one character; ScanRenderSci and ScanIntToString state what it reads |
| Numerals.PyFloat | code-experiments/rw-problems/socket_server.in.py:53 | float(): it succeeds only when the text, stripped of white space, is one whole decimal number; PyFloatRenderSci and PyFloatIntToString state what it reads |
| Numerals.PyFloatRenderSci | code-experiments/rw-problems/socket_server.in.py:53 | float() reads a %e token as exactly its value |
| Numerals.PyFloatIntToString | code-experiments/rw-problems/socket_server.in.py:53 | float() reads a token written by %d as that integer |
| Scanf.ULongOf | code-experiments/rw-problems/socket_server.in.c:84 | %lu stores at most ULONG_MAX: a magnitude that fits as itself, a negated one modulo 2^64 |
| Scanf.StrConversion | code-experiments/rw-problems/socket_server.in.c:84 | %s fails only at the end of the input, and otherwise stores a non-empty word that ends at white space or at the end |
| Scanf.ULongConversion | code-experiments/rw-problems/socket_server.in.c:84 | %lu stores a value that fits an unsigned long and consumes input |
| Scanf.StrConversionOf | code-experiments/rw-problems/socket_server.in.c:84 | %s reads back a word with no white space in it |
| Scanf.ULongConversionOf | code-experiments/rw-problems/socket_server.in.c:84 | %lu reads back the decimal text of every number that fits an unsigned long |
| Text.CutAtNul | code-experiments/rw-problems/socket_server.in.py:128 | what stays of a message holds no NUL, is a prefix of it, and is all of it when it has none |
| Text.Split | code-experiments/rw-problems/socket_server.in.py:46 | split(' ') gives at least one part, and no part holds the separator |
| Text.JoinSplit | code-experiments/rw-problems/socket_server.in.py:46 | joining the parts of a split with the separator gives the text back |
| Text.SplitJoin | code-experiments/rw-problems/socket_server.in.py:46 | splitting parts joined with a separator none of them holds gives the parts back |
| Text.PyInt | code-experiments/rw-problems/socket_server.in.py:49-52 | int(): blank text raises; PyIntOfIntToString states that it reads back the decimal text of every integer |
| Text.PyIntOfIntToString | code-experiments/rw-problems/socket_server.in.py:49-52 | int() reads back the decimal text of every integer |
| Text.Find | experiment_data/retrieve_data_info.py:87 | find gives the first position where the text occurs, or -1 exactly when it occurs nowhere |
| Text.Lower | experiment_data/retrieve_data_info.py:87 | lower() keeps the length and lowers every letter in place |
| Text.SplitWhitespace | experiment_data/retrieve_data_info.py:55 | split() gives non-empty words without whitespace |
| Coco.Suite.constructor | code-experiments/src/suite_toy_socket.c:28-38 | a suite with its name, functions 1 to n, its dimensions, its default instances and known-optima flag, the instances selected, and no socket data yet |
| Coco.SocketProblemOf | code-experiments/src/socket_communication.c:168-175 | a request is built from exactly the problem's suite name, function, instance, dimension, integer-variable count and value counts |

## Where the code and its comments differ

The model follows the code in each of these places.

- The comment at socket_communication.c:183-190 gives a response as exactly n values. The
  C loop below it can read more values than the text holds: see Findings, row 4.
- rw_example_experiment.py:13 documents a default budget multiplier of 10, and line 21 the
  example argument `suite_name=`. The code defaults to 2 (line 60) and recognises only
  `suite=` (`DocumentedSuiteKeyIgnored`).
- The comment at socket_server.in.c:9-10 speaks of the messages `RESET` and `SHUTDOWN`. The
  C server treats them as prefixes, and the Python server compares them exactly
  (`ResetMustBeExact`).

The client's cache compares rendered messages with `strcmp` (socket_communication.c:267).
Two decision vectors that render to the same message therefore share one stored response.
`LookupTwice` and `LookupRoundTrip` are stated on messages for that reason.

## Left out

- Sockets, `connect`, `accept`, `bind` and partial `recv` are not modelled. The server is a
  function from message to response on the client side. On the server side it reads an
  abstract sequence of received messages, one message per `recv`.
- The fixed buffers MESSAGE_SIZE, RESPONSE_SIZE and STRING_SIZE, and the truncation or
  overflow of text that does not fit them, are not modelled. Strings are unbounded.
- Printing, the `silent` flag's effect on output, `fprintf` diagnostics and the error
  messages' text are left out (the flag itself is parsed).
- IEEE doubles: decision and result values are Dafny reals.
  - `%.*e` is rendered exactly, rounding half to even on the exact value. The rounding of
    the binary nearest double is not modelled.
  - `strtod` and Python `float()` read a decimal grammar without inf, nan, hexadecimal
    floats or underscores.
- `exit(EXIT_FAILURE)`, `coco_error` and undefined behaviour (reading an unset `%n` count, or
  a table row past the end) are modelled as error results. The process is not terminated.
- `coco_double_to_int` is a parameter of the client, fixed when the client is created. Its
  rounding is not modelled.
- What `coco_problem_allocate` does beyond allocator vectors of the right sizes (names, ids,
  the initial zero values) is left out. So are problem ids and names, which are only
  formatted text.
- Parsing of COCO's option strings (`port:`, `host:`, `precision_x:`, `instances:`) is not
  modelled: the client takes already parsed options. Instance ranges are passed to the suite
  as selected.
- The order in which COCO iterates a suite's problems is not modelled; the partition of
  indices into batches is.
- rw_example_experiment.py: the suite and observer option strings (lines 110-115), the
  observer, the random-search solver, the restart loop and the bound widening's effect on
  the solver are left out. This is the library's own work, or it is randomness.
- rw_experiment_jmetal.py: the jMetal problem wrapper and the construction and runs of
  NSGA-II, GDE3 and random search (lines 121-126 and the bodies at 140-169) are left out. The
  model records which algorithm is chosen and its budget, not what it computes.
- retrieve_data_info.py: pandas, the directory walk, reading files, `eval_ratio` and the
  CSV output of `get_experiment_data` are left out. The string logic that classifies one
  file's contents is modelled.
- `lower()` lowers ASCII letters only. Unicode case mapping is not modelled.
- PyInt: the model's `int()` reads an optional sign and ASCII digits, with ASCII white space
  (and the separators `\x1c`-`\x1f`) stripped around them. Python's `int()` also reads
  underscores between digits (`"1_000"`), non-ASCII digits, and text around which non-ASCII
  white space is stripped (`int("\xa07")` is 7). On those the model raises instead. This
  affects the ports, batches and counts the scripts read, the Python server's integer
  fields, and `RetrieveDataInfo.ReadInt`.
- SplitWhitespace: the model's `str.split()` and `str.strip()` split at and strip only
  ASCII white space and `\x1c`-`\x1f`. Python also splits at and strips `\x85`, `\xa0`,
  `\u1680`, `\u2000`-`\u200a`, `\u2028`, `\u2029`, `\u202f`, `\u205f` and `\u3000`. The model keeps
  those characters inside a word. This affects the batch-line test of retrieve_data_info.py
  and the stripping that `int()` and `float()` do.
- The top-trumps evaluator in the C server is compiled out (`EVALUATE_RW_TOP_TRUMPS` is 0),
  and so is the Mario GAN evaluator in the Python server (`EVALUATE_RW_MARIO_GAN` is 0).
  Only the toy evaluators are dispatched to.
- The evaluators of rw-top-trumps and rw-mario-gan are external programs and are not
  modelled.
- A client that closes its connection without sending `RESET` is not modelled for the C
  server. There `read` returns 0 bytes, the buffer still holds the last message, and that
  message is answered again on every pass until `send` fails on the closed socket. The model
  has no message for an empty read: its C session waits at the end of the received messages.
- The Windows-specific branches of the client and the C server (`WSAStartup`,
  `closesocket`) are not modelled.
- The C server includes toy_socket_evaluator.c as source. The model imports the
  `ToySocketEvaluatorC` module instead.
- SocketCommunication.SocketCommunicationData.SaveResponse: models the loop as written.
  Where the count is stale it can return values that are not in the response (Findings,
  row 4). `ReadValuesAgrees` shows the result equals `DecodeResponse` whenever the
  intended reading succeeds.

## Findings

| source | as written | input that shows it | evidently intended | confidence | as-written member | corrected member |
|---|---|---|---|---|---|---|
| code-experiments/rw-problems/socket_server.in.c:84-89 | the header is accepted when `sscanf` assigns 6 items, but `%n` comes after `x%*c` and is not counted, so a message that stops before `x` passes the check and `char_count` is never set | `s toy-socket t objectives r 1 f 1 i 1 d 0` followed by one space and no `x`: answered as a request with zero values | to reject a header unless `x` and its separator were read, that is, unless `%n` stored the offset | not executed | SocketServerC.ReplyWithoutX, SocketServerC.HeaderWithoutX | SocketServerC.ReplyAgrees, SocketServerC.ServesRequest |
| code-experiments/src/rw_top_trumps.c:47-53 | the guard `instance - 1 > 15` admits instance 16, and the tables have only 15 rows | instance 16: the bounds are read from row 16 of 15-row arrays | `instance - 1 > 14`, that is, only instances 1 to 15 | not executed | RwTopTrumps.Instance16PassesGuard, RwTopTrumps.GuardAsWrittenElsewhere | RwTopTrumps.SetBounds |
| experiment_data/retrieve_data_info.py:90-94 | when no newline follows the error, `find` gives -1 and the end `error_loc + eol_loc` lies before the start, so the status is the empty string | contents `x error` (no trailing newline) | the message runs to the end of the contents | not executed | RetrieveDataInfo.ErrorAtEndAsWritten | RetrieveDataInfo.ErrorStatus |
| code-experiments/src/socket_communication.c:197-204 | `%n` is not reached after a number that ends the text, so `read_count` keeps the previous count and the offset moves into the middle of that number, where another value is read | response `1 234` read for 3 values: gives [1, 234, 4] instead of failing | to fail when fewer numbers than expected are in the response | not executed | SocketCommunication.ShortResponseReadsThree | SocketCommunication.DecodeRendered, SocketCommunication.ReadValuesAgrees |

In rows 1 and 2 the rest of the model uses the corrected definition. The C server's
EvaluateMessage reads the header with ReadHeaderChecked, and the problem allocation uses
SetBounds. In row 4 the client's SaveResponse and the C server's value loop keep the loop as
written (ReadValues), because ReadValuesAgrees shows that it gives DecodeResponse's values
whenever the intended reading succeeds. For every response a server renders it does
succeed: DecodeRendered, SocketServerC.ResponseReadsBack. In row 3, RetrieveDataInfo.Status
is the corrected status, and RetrieveDataInfo.StatusAsWritten the status as written.
RetrieveDataInfo.ReadOutFile uses Status, so on contents `x error` it reports `error`,
where the script records the empty string.
