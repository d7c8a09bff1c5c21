/**
 * The chat command grammar: `!<station> <verb...>`, lower-cased, split on the
 * space character with empty pieces dropped, and the verb matched against a
 * fixed six-row table.
 */
module Commands {
  import opened Wrappers
  import opened Strings

  datatype Operation = Help | Shutdown | PowerOn | PowerOff | PttEnable | PttDisable
  {
    /** Only `Help` may be issued by someone who is not a station operator. */
    predicate IsOperatorOnly()
      ensures IsOperatorOnly() <==> this != Help
    {
      match this
      case Help => false
      case Shutdown => true
      case PowerOff => true
      case PowerOn => true
      case PttEnable => true
      case PttDisable => true
    }
  }

  datatype Command = Command(stationName: string, op: Operation)

  /** The three ways a command string can fail to parse. */
  datatype ParseError =
    | EmptyCommand      // nothing but spaces
    | BadCommandStart   // the first token does not start with '!'
    | UnknownCommand    // the tokens after the first match no row of the verb table

  /** The verb table, read from operation to tokens. */
  function Words(op: Operation): (w: seq<string>)
    ensures 1 <= |w| <= 2
  {
    match op
    case Help => ["help"]
    case Shutdown => ["shutdown"]
    case PowerOn => ["power", "on"]
    case PowerOff => ["power", "off"]
    case PttEnable => ["ptt", "enable"]
    case PttDisable => ["ptt", "disable"]
  }

  /** The verb as a user types it after the station name. */
  function VerbText(op: Operation): string
  {
    Join(Words(op), " ")
  }

  /** `Operation::try_from(&[&str])`: a match on the whole token slice. */
  function ParseOperation(parts: seq<string>): (r: Result<Operation, ParseError>)
    ensures forall op :: r == Ok(op) <==> parts == Words(op)
    ensures r.Err? ==> r.error == UnknownCommand
  {
    if parts == ["help"] then Ok(Help)
    else if parts == ["shutdown"] then Ok(Shutdown)
    else if parts == ["power", "on"] then Ok(PowerOn)
    else if parts == ["power", "off"] then Ok(PowerOff)
    else if parts == ["ptt", "enable"] then Ok(PttEnable)
    else if parts == ["ptt", "disable"] then Ok(PttDisable)
    else Err(UnknownCommand)
  }

  // ---------------------------------------------------------------------------
  // Lower-casing (ASCII letters only)

  predicate IsUpper(c: char)
  {
    'A' <= c <= 'Z'
  }

  /** No upper-case letter anywhere in `s`. */
  predicate NoUpper(s: string)
  {
    forall i :: 0 <= i < |s| ==> !IsUpper(s[i])
  }

  function LowerChar(c: char): (d: char)
    ensures !IsUpper(d)
    ensures d == ' ' <==> c == ' '
    ensures d == '!' <==> c == '!'
    ensures !IsUpper(c) ==> d == c
  {
    if IsUpper(c) then (c as int - 'A' as int + 'a' as int) as char else c
  }

  /** `to_lowercase`, character by character. */
  function Lower(s: string): string
  {
    seq(|s|, i requires 0 <= i < |s| => LowerChar(s[i]))
  }

  lemma LowerNoUpper(s: string)
    ensures NoUpper(Lower(s))
  {
  }

  lemma LowerFixed(s: string)
    requires NoUpper(s)
    ensures Lower(s) == s
  {
  }

  lemma LowerIdempotent(s: string)
    ensures Lower(Lower(s)) == Lower(s)
  {
    LowerNoUpper(s);
    LowerFixed(Lower(s));
  }

  lemma LowerAllSpaces(s: string)
    ensures (forall i :: 0 <= i < |s| ==> Lower(s)[i] == ' ') <==> (forall i :: 0 <= i < |s| ==> s[i] == ' ')
  {
    assert forall i :: 0 <= i < |s| ==> Lower(s)[i] == LowerChar(s[i]);
  }

  lemma LowerConcat(a: string, b: string)
    ensures Lower(a + b) == Lower(a) + Lower(b)
  {
  }

  // ---------------------------------------------------------------------------
  // Tokenising: `split(' ')` followed by dropping the empty pieces

  /** `str::split(' ')`: the pieces between space characters, empty ones included. */
  function Split(s: string): (r: seq<string>)
    ensures |r| >= 1
  {
    if s == [] then [""]
    else
      var rest := Split(s[1..]);
      if s[0] == ' ' then [""] + rest
      else [[s[0]] + rest[0]] + rest[1..]
  }

  /** The pieces hold no space, and joining them with spaces gives the string back. */
  lemma {:induction false} SplitPieces(s: string)
    ensures forall i :: 0 <= i < |Split(s)| ==> ' ' !in Split(s)[i]
    ensures Join(Split(s), " ") == s
  {
    if s != [] {
      SplitPieces(s[1..]);
    }
  }

  /** `filter(|s| !s.is_empty())`. */
  function DropEmpty(parts: seq<string>): seq<string>
  {
    if parts == [] then []
    else (if parts[0] == "" then [] else [parts[0]]) + DropEmpty(parts[1..])
  }

  /** What the filter keeps is non-empty and was among its input. */
  lemma {:induction false} DropEmptyKeeps(parts: seq<string>)
    ensures forall i :: 0 <= i < |DropEmpty(parts)| ==> DropEmpty(parts)[i] != "" && DropEmpty(parts)[i] in parts
  {
    if parts != [] {
      DropEmptyKeeps(parts[1..]);
    }
  }

  /** The tokens of a command string. */
  function Tokens(s: string): seq<string>
  {
    DropEmpty(Split(s))
  }

  /** Every token is non-empty and holds no space. */
  lemma TokensShape(s: string)
    ensures forall i :: 0 <= i < |Tokens(s)| ==> Tokens(s)[i] != "" && ' ' !in Tokens(s)[i]
  {
    SplitPieces(s);
    DropEmptyKeeps(Split(s));
  }

  /** A space splits the string into the pieces before it and the pieces after it. */
  lemma {:induction false} SplitAtSpace(a: string, b: string)
    ensures Split(a + " " + b) == Split(a) + Split(b)
  {
    if a == [] {
      assert a + " " + b == [' '] + b;
    } else {
      var s := a + " " + b;
      assert s[1..] == a[1..] + " " + b;
      SplitAtSpace(a[1..], b);
    }
  }

  lemma {:induction false} DropEmptyConcat(x: seq<string>, y: seq<string>)
    ensures DropEmpty(x + y) == DropEmpty(x) + DropEmpty(y)
  {
    if x != [] {
      assert (x + y)[0] == x[0];
      assert (x + y)[1..] == x[1..] + y;
      DropEmptyConcat(x[1..], y);
    } else {
      assert x + y == y;
    }
  }

  /** The tokens on either side of a space, concatenated. */
  lemma TokensAtSpace(a: string, b: string)
    ensures Tokens(a + " " + b) == Tokens(a) + Tokens(b)
  {
    SplitAtSpace(a, b);
    DropEmptyConcat(Split(a), Split(b));
  }

  lemma {:induction false} DropEmptyAllEmpty(parts: seq<string>)
    requires DropEmpty(parts) == []
    ensures forall i :: 0 <= i < |parts| ==> parts[i] == ""
  {
    if parts != [] {
      DropEmptyAllEmpty(parts[1..]);
      assert forall i :: 1 <= i < |parts| ==> parts[i] == parts[1..][i - 1];
    }
  }

  lemma {:induction false} DropEmptyOfEmpties(parts: seq<string>)
    requires forall i :: 0 <= i < |parts| ==> parts[i] == ""
    ensures DropEmpty(parts) == []
  {
    if parts != [] {
      DropEmptyOfEmpties(parts[1..]);
    }
  }

  lemma {:induction false} JoinOfEmpties(parts: seq<string>)
    requires forall i :: 0 <= i < |parts| ==> parts[i] == ""
    ensures forall i :: 0 <= i < |Join(parts, " ")| ==> Join(parts, " ")[i] == ' '
  {
    if |parts| > 1 {
      JoinOfEmpties(parts[1..]);
    }
  }

  /** A string has no tokens exactly when it is made of spaces only. */
  lemma TokensEmptyIff(s: string)
    ensures Tokens(s) == [] <==> forall i :: 0 <= i < |s| ==> s[i] == ' '
  {
    var parts := Split(s);
    if Tokens(s) == [] {
      DropEmptyAllEmpty(parts);
      JoinOfEmpties(parts);
      SplitPieces(s);
    }
    if forall i :: 0 <= i < |s| ==> s[i] == ' ' {
      SplitOfSpaces(s);
      DropEmptyOfEmpties(parts);
    }
  }

  lemma {:induction false} SplitOfSpaces(s: string)
    requires forall i :: 0 <= i < |s| ==> s[i] == ' '
    ensures forall i :: 0 <= i < |Split(s)| ==> Split(s)[i] == ""
  {
    if s != [] {
      SplitOfSpaces(s[1..]);
    }
  }

  /** Pieces of a string without upper-case letters have none either. */
  lemma {:induction false} SplitNoUpper(s: string)
    requires NoUpper(s)
    ensures forall i :: 0 <= i < |Split(s)| ==> NoUpper(Split(s)[i])
  {
    if s != [] {
      SplitNoUpper(s[1..]);
    }
  }

  lemma TokensNoUpper(s: string)
    requires NoUpper(s)
    ensures forall i :: 0 <= i < |Tokens(s)| ==> NoUpper(Tokens(s)[i])
  {
    SplitNoUpper(s);
    DropEmptyKeeps(Split(s));
  }

  /** A non-empty string without spaces is a single token. */
  lemma {:induction false} TokensOfWord(w: string)
    requires w != "" && ' ' !in w
    ensures Tokens(w) == [w]
  {
    SplitOfWord(w);
    assert DropEmpty([w]) == [w] + DropEmpty([]);
  }

  lemma {:induction false} SplitOfWord(w: string)
    requires ' ' !in w
    ensures Split(w) == [w]
  {
    if w != [] {
      assert ' ' !in w[1..] by {
        forall i | 0 <= i < |w[1..]| ensures w[1..][i] != ' ' {
          assert w[1..][i] == w[i + 1];
        }
      }
      SplitOfWord(w[1..]);
      assert [w[0]] + w[1..] == w;
    }
  }

  /** The first token starts with the first character, when that is not a space. */
  lemma TokensHead(s: string)
    requires s != [] && s[0] != ' '
    ensures Tokens(s) != [] && Tokens(s)[0] != "" && Tokens(s)[0][0] == s[0]
  {
  }

  /** The first token starts with the first non-space character. */
  lemma {:induction false} TokensFirstChar(s: string, k: nat)
    requires k < |s| && s[k] != ' '
    requires forall i :: 0 <= i < k ==> s[i] == ' '
    ensures Tokens(s) != [] && Tokens(s)[0] != "" && Tokens(s)[0][0] == s[k]
  {
    if k == 0 {
      TokensHead(s);
    } else {
      assert s == [] + " " + s[1..];
      TokensAtSpace([], s[1..]);
      assert forall i :: 0 <= i < k - 1 ==> s[1..][i] == s[i + 1];
      TokensFirstChar(s[1..], k - 1);
    }
  }

  /** Splitting a space-joined list of words gives the words back. */
  lemma {:induction false} TokensOfJoin(ws: seq<string>)
    requires forall i :: 0 <= i < |ws| ==> ws[i] != "" && ' ' !in ws[i]
    ensures Tokens(Join(ws, " ")) == ws
  {
    if |ws| == 0 {
    } else if |ws| == 1 {
      TokensOfWord(ws[0]);
    } else {
      TokensAtSpace(ws[0], Join(ws[1..], " "));
      TokensOfWord(ws[0]);
      TokensOfJoin(ws[1..]);
    }
  }

  /** Splitting a space-joined list of space-free pieces gives the pieces back. */
  lemma {:induction false} SplitOfJoin(ws: seq<string>)
    requires |ws| >= 1
    requires forall i :: 0 <= i < |ws| ==> ' ' !in ws[i]
    ensures Split(Join(ws, " ")) == ws
  {
    if |ws| == 1 {
      SplitOfWord(ws[0]);
    } else {
      SplitAtSpace(ws[0], Join(ws[1..], " "));
      SplitOfWord(ws[0]);
      SplitOfJoin(ws[1..]);
    }
  }

  // ---------------------------------------------------------------------------
  // The command parser

  /** `Command::try_from(String)`. */
  function ParseCommand(s: string): (r: Result<Command, ParseError>)
    // an empty or all-space string is the empty-command error, and only it
    ensures r == Err(EmptyCommand) <==> forall i :: 0 <= i < |s| ==> s[i] == ' '
    // on success the first token is '!' followed by the station name, and the
    // remaining tokens are the verb-table row of the operation
    ensures r.Ok? ==>
      var parts := Tokens(Lower(s));
      |parts| >= 1 && parts[0] == "!" + r.value.stationName && parts[1..] == Words(r.value.op)
    // the station name is lower-case and holds no space
    ensures r.Ok? ==> NoUpper(r.value.stationName) && ' ' !in r.value.stationName
  {
    TokensEmptyIff(Lower(s));
    LowerAllSpaces(s);
    LowerNoUpper(s);
    TokensNoUpper(Lower(s));
    TokensShape(Lower(s));
    var parts := Tokens(Lower(s));
    if |parts| == 0 then Err(EmptyCommand)
    else if parts[0][0] == '!' then
      match ParseOperation(parts[1..])
      case Ok(op) =>
        assert parts[0] == "!" + parts[0][1..];
        Ok(Command(parts[0][1..], op))
      case Err(e) => Err(e)
    else Err(BadCommandStart)
  }

  // ---------------------------------------------------------------------------
  // Properties of the parser

  /** Parsing is case-insensitive: the input is lower-cased first. */
  lemma ParseCaseInsensitive(s: string)
    ensures ParseCommand(Lower(s)) == ParseCommand(s)
  {
    LowerIdempotent(s);
  }

  /** Leading, trailing and doubled spaces do not change the result. */
  lemma ParseIgnoresExtraSpaces(a: string, b: string)
    ensures ParseCommand(" " + a) == ParseCommand(a)
    ensures ParseCommand(a + " ") == ParseCommand(a)
    ensures ParseCommand(a + "  " + b) == ParseCommand(a + " " + b)
  {
    LowerOfSpaces(a, b);
    TokensIgnoreExtraSpaces(Lower(a), Lower(b));
  }

  lemma LowerOfSpaces(a: string, b: string)
    ensures Lower(" " + a) == " " + Lower(a)
    ensures Lower(a + " ") == Lower(a) + " "
    ensures Lower(a + "  " + b) == Lower(a) + "  " + Lower(b)
    ensures Lower(a + " " + b) == Lower(a) + " " + Lower(b)
  {
  }

  lemma TokensIgnoreExtraSpaces(a: string, b: string)
    ensures Tokens(" " + a) == Tokens(a)
    ensures Tokens(a + " ") == Tokens(a)
    ensures Tokens(a + "  " + b) == Tokens(a + " " + b)
  {
    TokensAtSpace([], a);
    assert [] + " " + a == " " + a;
    TokensAtSpace(a, []);
    assert a + " " + [] == a + " ";
    assert a + "  " + b == a + " " + (" " + b);
    TokensAtSpace(a, " " + b);
    TokensAtSpace([], b);
    assert [] + " " + b == " " + b;
    TokensAtSpace(a, b);
  }

  /**
   * When the first non-space character is at index k, the marker check is on that
   * character: the result is the bad-start error exactly when it is not '!'.
   */
  lemma ParseMarker(s: string, k: nat)
    requires k < |s| && s[k] != ' '
    requires forall i :: 0 <= i < k ==> s[i] == ' '
    ensures ParseCommand(s) == Err(BadCommandStart) <==> s[k] != '!'
  {
    TokensFirstChar(Lower(s), k);
  }

  /**
   * Parsing `!<name> <verb>` gives back the name and the operation, for every
   * lower-case, space-free name.
   */
  lemma ParseRoundTrip(name: string, op: Operation)
    requires NoUpper(name) && ' ' !in name
    ensures ParseCommand("!" + name + " " + VerbText(op)) == Ok(Command(name, op))
  {
    var ws := ["!" + name] + Words(op);
    var s := "!" + name + " " + VerbText(op);
    assert ws[1..] == Words(op);
    assert Join(ws, " ") == s;
    VerbWords(op);
    assert NoUpper(s);
    LowerFixed(s);
    TokensOfJoin(ws);
    ParseOfTokens(s, name, op);
  }

  /** The verb words are non-empty, space-free and lower-case. */
  lemma VerbWords(op: Operation)
    ensures forall i :: 0 <= i < |Words(op)| ==> Words(op)[i] != "" && ' ' !in Words(op)[i]
    ensures NoUpper(VerbText(op))
  {
    match op
    case Help =>
    case Shutdown =>
    case PowerOn =>
    case PowerOff =>
    case PttEnable =>
    case PttDisable =>
  }

  /** A string whose tokens are `!name` and a verb-table row parses to that command. */
  lemma ParseOfTokens(s: string, name: string, op: Operation)
    requires Tokens(Lower(s)) == ["!" + name] + Words(op)
    ensures ParseCommand(s) == Ok(Command(name, op))
  {
    assert (["!" + name] + Words(op))[1..] == Words(op);
  }
}

/** The unit tests of the command parser, as lemmas. */
module CommandTests {
  import opened Wrappers
  import opened Commands

  lemma ParseCommandOk()
    ensures ParseCommand("!mb7pmf power on") == Ok(Command("mb7pmf", PowerOn))
  {
    ParseRoundTrip("mb7pmf", PowerOn);
    assert "!" + "mb7pmf" + " " + VerbText(PowerOn) == "!mb7pmf power on";
  }

  lemma ParseCommandOkCase(s: string)
    requires s == "!MB7PMF Power ON"
    ensures ParseCommand(s) == Ok(Command("mb7pmf", PowerOn))
  {
    ParseCaseInsensitive(s);
    assert Lower(s) == "!mb7pmf power on";
    ParseCommandOk();
  }

  lemma ParseCommandErrCommandString()
    ensures ParseCommand("mb7pmf power on").Err?
  {
    ParseMarker("mb7pmf power on", 0);
  }

  lemma ParseOperationOk()
    ensures ParseOperation(["help"]) == Ok(Help)
    ensures ParseOperation(["shutdown"]) == Ok(Shutdown)
    ensures ParseOperation(["power", "on"]) == Ok(PowerOn)
  {
  }

  lemma ParseOperationErr()
    ensures ParseOperation(["halp"]).Err?
    ensures ParseOperation([""]).Err?
    ensures ParseOperation([]).Err?
  {
  }

  /** `! help` addresses the empty station name. */
  lemma ParseEmptyStationHelp()
    ensures ParseCommand("! help") == Ok(Command("", Help))
  {
    ParseRoundTrip("", Help);
    assert "!" + "" + " " + VerbText(Help) == "! help";
  }

  /** `!x` alone has no verb, so it is an unknown command. */
  lemma ParseMarkerWithoutVerb()
    ensures ParseCommand("!x") == Err(UnknownCommand)
  {
    assert Lower("!x") == "!x";
    TokensOfWord("!x");
  }
}
