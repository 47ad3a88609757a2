/**
 * The line protocol of cmd/server/main.go (and its twin main.go): a line split
 * into whitespace-separated tokens is parsed into a command, and the command is
 * executed as at most one engine call plus one reply. Sockets, the greeting and
 * the reply text formatting are outside the model.
 */
module Server {
  import opened Wrappers
  import opened Similarity
  import opened Ranking
  import opened Engine

  /**
   * `strconv.ParseFloat(s, 64)`: a partial parser from token to number, given as a
   * parameter because its floating-point semantics are outside the model.
   */
  type ParseFn = string -> Option<real>

  /** The result limit the transport passes to every search. */
  const DefaultLimit: int := 3

  /** Which usage message a command with too few arguments receives. */
  datatype Usage = AddUsage | SearchUsage

  /** What one input line asks for. */
  datatype Command =
    | Skip                                  // blank line: nothing happens
    | AddCmd(id: string, vec: Vector)       // one call Add(id, vec)
    | SearchCmd(query: Vector, limit: int)  // one call Search(query, limit)
    | SaveCmd                               // one call Save
    | UsageError(usage: Usage)              // too few arguments
    | InvalidNumber(token: string)          // a token that is not a number
    | UnknownCommand                        // any other first token

  /** What the server writes back for one line. */
  datatype Response =
    | NoReply
    | OkReply
    | UsageReply(usage: Usage)
    | InvalidNumberReply(token: string)
    | NoResultsReply
    | ResultLines(results: seq<SearchResult>)  // one output line per result, in order
    | SavedReply
    | SaveFailedReply
    | UnknownCommandReply
    | Crashed  // storing into a nil map panicked; the process exits without a reply

  /** Every token parses as a number. */
  predicate AllNumbers(args: seq<string>, parseNum: ParseFn)
  {
    forall i :: 0 <= i < |args| ==> parseNum(args[i]).Some?
  }

  /** `t` is the first token of `args` that does not parse. */
  predicate IsFirstInvalid(args: seq<string>, parseNum: ParseFn, t: string)
  {
    exists i :: 0 <= i < |args| && args[i] == t && parseNum(args[i]).None? && AllNumbers(args[..i], parseNum)
  }

  /**
   * parseVector: all or nothing. Either every token parses and the vector holds
   * their values in token order, or the first unparseable token is reported and
   * no vector is produced.
   */
  function ParseVector(args: seq<string>, parseNum: ParseFn): (r: Result<Vector, string>)
    ensures r.Success? <==> AllNumbers(args, parseNum)
    ensures r.Success? ==> |r.value| == |args| && forall i :: 0 <= i < |args| ==> parseNum(args[i]) == Some(r.value[i])
    ensures r.Failure? ==> IsFirstInvalid(args, parseNum, r.error)
  {
    if |args| == 0 then
      Success([])
    else
      assert forall i :: 1 <= i < |args| ==> args[i] == args[1..][i - 1];
      match parseNum(args[0])
      case None =>
        assert args[..0] == [];
        Failure(args[0])
      case Some(x) =>
        match ParseVector(args[1..], parseNum)
        case Failure(t) =>
          var i :| 0 <= i < |args[1..]| && args[1..][i] == t && parseNum(args[1..][i]).None?
                   && AllNumbers(args[1..][..i], parseNum);
          assert args[..i + 1] == [args[0]] + args[1..][..i];
          assert args[i + 1] == t;
          Failure(t)
        case Success(rest) =>
          Success([x] + rest)
  }

  /**
   * Parsing two token runs one after the other: the joined run parses exactly
   * when both do, to the joined vectors, and an error in the first run is
   * reported without looking at the second.
   */
  lemma ParseVectorAppend(a: seq<string>, b: seq<string>, parseNum: ParseFn)
    ensures ParseVector(a + b, parseNum).Success? <==>
              ParseVector(a, parseNum).Success? && ParseVector(b, parseNum).Success?
    ensures ParseVector(a + b, parseNum).Success? ==>
              ParseVector(a + b, parseNum).value == ParseVector(a, parseNum).value + ParseVector(b, parseNum).value
    ensures ParseVector(a, parseNum).Failure? ==> ParseVector(a + b, parseNum) == ParseVector(a, parseNum)
  {
    AllNumbersAppend(a, b, parseNum);
    var rab, ra := ParseVector(a + b, parseNum), ParseVector(a, parseNum);
    if rab.Success? {
      ParseVectorAppendValue(a, b, parseNum);
    }
    if ra.Failure? {
      FirstInvalidAppend(a, b, parseNum, ra.error);
      FirstInvalidUnique(a + b, parseNum, ra.error, rab.error);
    }
  }

  lemma AllNumbersAppend(a: seq<string>, b: seq<string>, parseNum: ParseFn)
    ensures AllNumbers(a + b, parseNum) <==> AllNumbers(a, parseNum) && AllNumbers(b, parseNum)
  {
    var ab := a + b;
    if AllNumbers(ab, parseNum) {
      forall i | 0 <= i < |a| ensures parseNum(a[i]).Some? {
        assert ab[i] == a[i];
      }
      forall i | 0 <= i < |b| ensures parseNum(b[i]).Some? {
        assert ab[|a| + i] == b[i];
      }
    }
  }

  lemma ParseVectorAppendValue(a: seq<string>, b: seq<string>, parseNum: ParseFn)
    requires AllNumbers(a, parseNum) && AllNumbers(b, parseNum) && AllNumbers(a + b, parseNum)
    ensures ParseVector(a + b, parseNum).value == ParseVector(a, parseNum).value + ParseVector(b, parseNum).value
  {
    var ab := a + b;
    var vab, va, vb := ParseVector(ab, parseNum).value, ParseVector(a, parseNum).value, ParseVector(b, parseNum).value;
    forall i | 0 <= i < |ab| ensures vab[i] == (va + vb)[i] {
      if i < |a| {
        assert ab[i] == a[i];
      } else {
        assert ab[i] == b[i - |a|];
      }
    }
  }

  /** A first invalid token of `a` stays the first invalid token when more tokens follow. */
  lemma FirstInvalidAppend(a: seq<string>, b: seq<string>, parseNum: ParseFn, t: string)
    requires IsFirstInvalid(a, parseNum, t)
    ensures IsFirstInvalid(a + b, parseNum, t)
  {
    var i :| 0 <= i < |a| && a[i] == t && parseNum(a[i]).None? && AllNumbers(a[..i], parseNum);
    assert (a + b)[..i] == a[..i];
    assert (a + b)[i] == a[i];
  }

  /** There is only one first invalid token. */
  lemma FirstInvalidUnique(args: seq<string>, parseNum: ParseFn, t1: string, t2: string)
    requires IsFirstInvalid(args, parseNum, t1) && IsFirstInvalid(args, parseNum, t2)
    ensures t1 == t2
  {
    var i :| 0 <= i < |args| && args[i] == t1 && parseNum(args[i]).None? && AllNumbers(args[..i], parseNum);
    var j :| 0 <= j < |args| && args[j] == t2 && parseNum(args[j]).None? && AllNumbers(args[..j], parseNum);
    forall k | 0 <= k < j ensures parseNum(args[k]).Some? {
      assert args[..j][k] == args[k];
    }
    forall k | 0 <= k < i ensures parseNum(args[k]).Some? {
      assert args[..i][k] == args[k];
    }
  }

  /** handleAdd's checks: arity first, then the numbers; otherwise one Add call. */
  function ParseAdd(args: seq<string>, parseNum: ParseFn): (c: Command)
    ensures c.AddCmd? || c.UsageError? || c.InvalidNumber?
    ensures c == UsageError(AddUsage) <==> |args| < 2
    ensures c.AddCmd? <==> |args| >= 2 && AllNumbers(args[1..], parseNum)
    ensures c.AddCmd? ==> c.id == args[0] && |c.vec| == |args| - 1
    ensures c.AddCmd? ==> forall i :: 1 <= i < |args| ==> parseNum(args[i]) == Some(c.vec[i - 1])
    ensures c.InvalidNumber? ==> |args| >= 2 && IsFirstInvalid(args[1..], parseNum, c.token)
  {
    if |args| < 2 then
      UsageError(AddUsage)
    else
      assert forall i :: 1 <= i < |args| ==> args[i] == args[1..][i - 1];
      match ParseVector(args[1..], parseNum)
      case Failure(t) => InvalidNumber(t)
      case Success(v) => AddCmd(args[0], v)
  }

  /** handleSearch's checks: arity first, then the numbers; otherwise one Search call with the default limit. */
  function ParseSearch(args: seq<string>, parseNum: ParseFn): (c: Command)
    ensures c.SearchCmd? || c.UsageError? || c.InvalidNumber?
    ensures c == UsageError(SearchUsage) <==> |args| == 0
    ensures c.SearchCmd? <==> |args| >= 1 && AllNumbers(args, parseNum)
    ensures c.SearchCmd? ==> c.limit == DefaultLimit && |c.query| == |args|
    ensures c.SearchCmd? ==> forall i :: 0 <= i < |args| ==> parseNum(args[i]) == Some(c.query[i])
    ensures c.InvalidNumber? ==> |args| >= 1 && IsFirstInvalid(args, parseNum, c.token)
  {
    if |args| < 1 then
      UsageError(SearchUsage)
    else
      match ParseVector(args, parseNum)
      case Failure(t) => InvalidNumber(t)
      case Success(v) => SearchCmd(v, DefaultLimit)
  }

  /**
   * handleConnection's dispatch: a blank line is skipped, and the first token is
   * compared exactly (case-sensitively) with ADD, SEARCH and SAVE; the remaining
   * tokens are that command's arguments. SAVE ignores any arguments.
   */
  function Parse(tokens: seq<string>, parseNum: ParseFn): (c: Command)
    ensures c == Skip <==> |tokens| == 0
    ensures c == UnknownCommand <==>
              |tokens| > 0 && tokens[0] != "ADD" && tokens[0] != "SEARCH" && tokens[0] != "SAVE"
    ensures c == SaveCmd <==> |tokens| > 0 && tokens[0] == "SAVE"
    ensures c == UsageError(AddUsage) <==> 1 <= |tokens| < 3 && tokens[0] == "ADD"
    ensures c == UsageError(SearchUsage) <==> |tokens| == 1 && tokens[0] == "SEARCH"
    ensures c.AddCmd? <==> |tokens| >= 3 && tokens[0] == "ADD" && AllNumbers(tokens[2..], parseNum)
    ensures c.AddCmd? ==> c.id == tokens[1] && |c.vec| == |tokens| - 2
    ensures c.AddCmd? ==> forall i :: 2 <= i < |tokens| ==> parseNum(tokens[i]) == Some(c.vec[i - 2])
    ensures c.SearchCmd? <==> |tokens| >= 2 && tokens[0] == "SEARCH" && AllNumbers(tokens[1..], parseNum)
    ensures c.SearchCmd? ==> c.limit == DefaultLimit && |c.query| == |tokens| - 1
    ensures c.SearchCmd? ==> forall i :: 1 <= i < |tokens| ==> parseNum(tokens[i]) == Some(c.query[i - 1])
    ensures c.InvalidNumber? ==>
              && |tokens| >= 2
              && (tokens[0] == "ADD" || tokens[0] == "SEARCH")
              && parseNum(c.token).None?
              && c.token in tokens[1..]
    ensures c.InvalidNumber? ==>
              IsFirstInvalid(tokens[if tokens[0] == "ADD" then 2 else 1..], parseNum, c.token)
  {
    if |tokens| == 0 then
      Skip
    else
      var command, args := tokens[0], tokens[1..];
      if command == "ADD" then
        assert |args| >= 1 ==> args[1..] == tokens[2..];
        var c := ParseAdd(args, parseNum);
        assert c.InvalidNumber? ==> c.token in args by {
          if c.InvalidNumber? {
            var i :| 0 <= i < |args[1..]| && args[1..][i] == c.token && parseNum(args[1..][i]).None?
                     && AllNumbers(args[1..][..i], parseNum);
            assert args[i + 1] == c.token;
          }
        }
        c
      else if command == "SEARCH" then
        ParseSearch(args, parseNum)
      else if command == "SAVE" then
        SaveCmd
      else
        UnknownCommand
  }

  /**
   * Runs one command against the engine: only ADD writes, only SEARCH reads, and
   * the reply reports the outcome. `saved` is whether the file write of Save
   * succeeded, which is outside the model. Search cannot fail, so the source's
   * error reply after a search is unreachable and not represented. An ADD on a
   * nil map panics, which ends the server (`Crashed`).
   */
  function Execute(e: VectorEngine, c: Command, order: seq<string>, score: ScoreFn, saved: bool)
    : (r: (VectorEngine, Response))
    requires IsIterationOrder(order, e.data)
    requires c.SearchCmd? ==> c.limit >= 0
    ensures c.AddCmd? && !e.nilMap ==> r.0 == Add(e, c.id, c.vec) && r.1 == OkReply
    ensures r.1 == Crashed <==> c.AddCmd? && e.nilMap
    ensures !c.AddCmd? ==> r.0 == e
    ensures r.1 == NoReply <==> c == Skip
    ensures r.1 == UnknownCommandReply <==> c == UnknownCommand
    ensures c.UsageError? ==> r.1 == UsageReply(c.usage)
    ensures c.InvalidNumber? ==> r.1 == InvalidNumberReply(c.token)
    ensures r.1 == SavedReply <==> c == SaveCmd && saved
    ensures r.1 == SaveFailedReply <==> c == SaveCmd && !saved
    ensures c.SearchCmd? ==> r.1 == NoResultsReply || r.1.ResultLines?
    ensures c.SearchCmd? ==>
              (r.1 == NoResultsReply <==> c.limit == 0 || |ValidIds(e.data, c.query, score)| == 0)
    ensures r.1.ResultLines? ==>
              && c.SearchCmd?
              && r.1.results == Search(e, c.query, c.limit, order, score).value
              && 0 < |r.1.results| <= c.limit
  {
    match c
    case Skip => (e, NoReply)
    case AddCmd(id, v) => if e.nilMap then (e, Crashed) else (Add(e, id, v), OkReply)
    case SearchCmd(q, limit) =>
      var results := Search(e, q, limit, order, score).value;
      if |results| == 0 then (e, NoResultsReply) else (e, ResultLines(results))
    case SaveCmd => (e, if saved then SavedReply else SaveFailedReply)
    case UsageError(u) => (e, UsageReply(u))
    case InvalidNumber(t) => (e, InvalidNumberReply(t))
    case UnknownCommand => (e, UnknownCommandReply)
  }

  /** One input line: parse it, then run the command. */
  function HandleLine(e: VectorEngine, tokens: seq<string>, parseNum: ParseFn, order: seq<string>,
                      score: ScoreFn, saved: bool): (r: (VectorEngine, Response))
    requires IsIterationOrder(order, e.data)
    ensures forall k :: k in e.data ==> k in r.0.data
    ensures r.0 != e ==> |tokens| >= 3 && tokens[0] == "ADD"
  {
    Execute(e, Parse(tokens, parseNum), order, score, saved)
  }

  /** A blank or whitespace-only line yields no reply and no engine call. */
  lemma HandleBlankLine(e: VectorEngine, parseNum: ParseFn, order: seq<string>, score: ScoreFn, saved: bool)
    requires IsIterationOrder(order, e.data)
    ensures HandleLine(e, [], parseNum, order, score, saved) == (e, NoReply)
  {
  }

  /** A first token other than ADD, SEARCH and SAVE yields UNKNOWN COMMAND and no engine call. */
  lemma HandleUnknownCommand(e: VectorEngine, tokens: seq<string>, parseNum: ParseFn, order: seq<string>,
                             score: ScoreFn, saved: bool)
    requires IsIterationOrder(order, e.data)
    requires |tokens| > 0 && tokens[0] != "ADD" && tokens[0] != "SEARCH" && tokens[0] != "SAVE"
    ensures HandleLine(e, tokens, parseNum, order, score, saved) == (e, UnknownCommandReply)
  {
  }

  /** ADD with fewer than two arguments yields the usage error and leaves the store alone. */
  lemma HandleAddArity(e: VectorEngine, tokens: seq<string>, parseNum: ParseFn, order: seq<string>,
                       score: ScoreFn, saved: bool)
    requires IsIterationOrder(order, e.data)
    requires 1 <= |tokens| < 3 && tokens[0] == "ADD"
    ensures HandleLine(e, tokens, parseNum, order, score, saved) == (e, UsageReply(AddUsage))
  {
  }

  /**
   * A valid ADD stores the parsed vector under the first argument, replies OK,
   * and changes no other entry; on a nil map the store panics instead.
   */
  lemma HandleAddValid(e: VectorEngine, tokens: seq<string>, parseNum: ParseFn, order: seq<string>,
                       score: ScoreFn, saved: bool)
    requires IsIterationOrder(order, e.data)
    requires |tokens| >= 3 && tokens[0] == "ADD" && AllNumbers(tokens[2..], parseNum)
    ensures e.nilMap ==> HandleLine(e, tokens, parseNum, order, score, saved) == (e, Crashed)
    ensures var r := HandleLine(e, tokens, parseNum, order, score, saved);
      !e.nilMap ==>
      && r.1 == OkReply
      && r.0.data.Keys == e.data.Keys + {tokens[1]}
      && |r.0.data[tokens[1]]| == |tokens| - 2
      && (forall i :: 2 <= i < |tokens| ==> parseNum(tokens[i]) == Some(r.0.data[tokens[1]][i - 2]))
      && (forall k :: k in e.data && k != tokens[1] ==> r.0.data[k] == e.data[k])
  {
    var c := Parse(tokens, parseNum);
    assert c == ParseAdd(tokens[1..], parseNum);
  }

  /**
   * SEARCH checks arity and numbers before searching: without arguments it
   * yields the usage error, with a bad number it names the first bad token, and
   * either way the store is untouched; otherwise it replies with the result of
   * Search(query, 3).
   */
  lemma HandleSearch(e: VectorEngine, tokens: seq<string>, parseNum: ParseFn, order: seq<string>,
                     score: ScoreFn, saved: bool)
    requires IsIterationOrder(order, e.data)
    requires |tokens| > 0 && tokens[0] == "SEARCH"
    ensures var r := HandleLine(e, tokens, parseNum, order, score, saved);
      && r.0 == e
      && (|tokens| == 1 ==> r.1 == UsageReply(SearchUsage))
      && (r.1.InvalidNumberReply? <==> |tokens| > 1 && !AllNumbers(tokens[1..], parseNum))
      && (r.1.InvalidNumberReply? ==> IsFirstInvalid(tokens[1..], parseNum, r.1.token))
      && (r.1.ResultLines? ==> |r.1.results| <= DefaultLimit && SortedDesc(r.1.results))
    ensures |tokens| >= 2 && AllNumbers(tokens[1..], parseNum) ==>
              var q := ParseVector(tokens[1..], parseNum).value;
              var rs := Search(e, q, DefaultLimit, order, score).value;
              HandleLine(e, tokens, parseNum, order, score, saved).1
                == if |rs| == 0 then NoResultsReply else ResultLines(rs)
  {
    var c := Parse(tokens, parseNum);
    assert c == ParseSearch(tokens[1..], parseNum);
  }

  /** The root main.go seeds a fresh store with exactly one entry before serving. */
  function DemoStartup(): (e: VectorEngine)
    ensures e.data.Keys == {"test_doc"}
    ensures e.data["test_doc"] == [0.1, 0.2, 0.3]
  {
    Add(NewVectorEngine(), "test_doc", [0.1, 0.2, 0.3])
  }

  /**
   * cmd/server/main.go's startup: a fresh engine loads the data file; a load
   * error only prints a warning, and serving starts with whatever the store holds.
   */
  function ServerStartup(file: FileOutcome): (e: VectorEngine)
    ensures file.Absent? || file.OpenFailed? ==> e.data == map[]
    ensures file.Decoded? ==> e.data == file.entries
    ensures file.DecodedNull? ==> e.data == map[] && e.nilMap
    ensures file.DecodeFailed? ==> e.data == file.written
  {
    Load(NewVectorEngine(), file).0
  }

  /**
   * A data file holding JSON `null` loads without error but leaves a nil map, so
   * the first valid ADD after startup panics.
   */
  lemma NullFileCrashesFirstAdd(tokens: seq<string>, parseNum: ParseFn, order: seq<string>,
                                score: ScoreFn, saved: bool)
    requires |tokens| >= 3 && tokens[0] == "ADD" && AllNumbers(tokens[2..], parseNum)
    requires IsIterationOrder(order, ServerStartup(DecodedNull).data)
    ensures Load(NewVectorEngine(), DecodedNull).1 == Pass
    ensures HandleLine(ServerStartup(DecodedNull), tokens, parseNum, order, score, saved).1 == Crashed
  {
    HandleAddValid(ServerStartup(DecodedNull), tokens, parseNum, order, score, saved);
  }
}
