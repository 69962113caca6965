/**
 * The terminal panel (src/components/Terminal.tsx): a command interpreter over a fixed command
 * set, a simulated Python runner that recognises `print(...)` lines, a JavaScript runner whose
 * evaluation is an oracle, and the prompt's submit and history-recall state. Browser side
 * effects are returned as effect tags; the clock's text is a parameter.
 */
module Terminal {
  import opened Text
  import opened Files
  import opened EditorStore

  datatype LineKind = InputLine | OutputLine | ErrorLine | SuccessLine | InfoLine

  /** One line of the terminal log. */
  datatype Line = Line(kind: LineKind, content: string)

  /** The two lines the log starts with. */
  const Welcome: seq<Line> := [
    Line(InfoLine, "Welcome to Anubhav's Portfolio Terminal v1.0.0"),
    Line(InfoLine, "Type \"help\" for available commands.\n")
  ]

  const CommandHelp: string := "\nAvailable commands:\n  help          - Show this help message\n  about         - Display information about Anubhav\n  skills        - List technical skills\n  projects      - Show featured projects\n  contact       - Display contact information\n  github        - Open GitHub profile\n  linkedin      - Open LinkedIn profile\n  resume        - Download resume\n  clear         - Clear terminal\n  ls            - List portfolio files\n  cat <file>    - Display file contents\n  whoami        - Display current user\n  date          - Show current date\n  neofetch      - System information (fun)\n  \n  npm run dev   - Start the portfolio website (opens in browser)\n  npm start     - Start the portfolio website\n  node <file>   - Run a JavaScript file\n  python <file> - Run a Python file\n  run <file>    - Auto-detect and run file\n"

  const NeofetchBanner: string := "\n       \U{2588}\U{2588}\U{2588}\U{2588}\U{2588}\U{2588}\U{2588}\U{2588}\U{2588}\U{2588}\U{2588}\U{2588}\U{2588}\U{2588}\U{2588}\U{2588}       anubhav@portfolio\n     \U{2588}\U{2588}                \U{2588}\U{2588}     -----------------\n   \U{2588}\U{2588}    \U{2588}\U{2588}\U{2588}\U{2588}\U{2588}\U{2588}\U{2588}\U{2588}\U{2588}\U{2588}    \U{2588}\U{2588}     OS: Portfolio IDE 1.0\n   \U{2588}\U{2588}  \U{2588}\U{2588}          \U{2588}\U{2588}  \U{2588}\U{2588}     Host: Next.js 14\n   \U{2588}\U{2588}  \U{2588}\U{2588}  \U{2588}\U{2588}\U{2588}\U{2588}\U{2588}\U{2588}  \U{2588}\U{2588}  \U{2588}\U{2588}     Kernel: React 18\n   \U{2588}\U{2588}  \U{2588}\U{2588}  \U{2588}\U{2588}\U{2588}\U{2588}\U{2588}\U{2588}  \U{2588}\U{2588}  \U{2588}\U{2588}     Shell: TypeScript\n   \U{2588}\U{2588}  \U{2588}\U{2588}          \U{2588}\U{2588}  \U{2588}\U{2588}     Theme: VS Code Dark+\n   \U{2588}\U{2588}    \U{2588}\U{2588}\U{2588}\U{2588}\U{2588}\U{2588}\U{2588}\U{2588}\U{2588}\U{2588}    \U{2588}\U{2588}     Icons: Lucide React\n     \U{2588}\U{2588}                \U{2588}\U{2588}     Terminal: Custom\n       \U{2588}\U{2588}\U{2588}\U{2588}\U{2588}\U{2588}\U{2588}\U{2588}\U{2588}\U{2588}\U{2588}\U{2588}\U{2588}\U{2588}\U{2588}\U{2588}       \n                              Languages: C, C++, Python,\n   Anubhav Mishra             JavaScript, TypeScript\n   Full-Stack Developer       \n   Systems Enthusiast         Projects: 41 repos\n                              Commits: 467 (last year)\n"

  /** A project record of the portfolio data, as the `projects` command prints it. */
  datatype ProjectEntry = ProjectEntry(icon: string, name: string, description: string, tech: seq<string>, featured: bool)

  /** The static portfolio record the commands print from. */
  datatype PortfolioInfo = PortfolioInfo(
    name: string, title: string, tagline: string,
    degree: string, university: string, status: string,
    languages: seq<string>, frameworks: seq<string>, databases: seq<string>, tools: seq<string>,
    projects: seq<ProjectEntry>,
    email: string, githubUrl: string, linkedinUrl: string)

  /** The two fixed banners of the terminal: the `help` text and the `neofetch` text. */
  datatype Banners = Banners(help: string, neofetch: string)

  /** The banners as the terminal defines them. */
  const TerminalBanners: Banners := Banners(CommandHelp, NeofetchBanner)

  /** What a command does besides printing. The page opens windows and later opens the
      embedded browser; those are left to the caller. */
  datatype Effect =
    | NoEffect
    | ClearLog
    | OpenWindow(url: string)
    | OpenBrowser(url: string)
    | DeferredBrowser(url: string, delayMs: nat)

  datatype Outcome = Outcome(lines: seq<Line>, effect: Effect)

  /** One call the evaluated script made on the captured console, its arguments already
      turned into strings. */
  datatype ConsoleCall = ConsoleLog(args: seq<string>) | ConsoleError(args: seq<string>) | ConsoleWarn(args: seq<string>)

  /** How an evaluated script ended: normally, after some console calls, or by throwing. */
  datatype JsOutcome = Completed(calls: seq<ConsoleCall>) | Threw(before: seq<ConsoleCall>, message: string)

  /** Everything `processCommand` reads besides the command: the portfolio record, the banners,
      the visitor's files, the date text and the script evaluator. */
  datatype Context = Context(data: PortfolioInfo, banners: Banners, userFiles: map<string, string>,
                             now: string, eval: string -> JsOutcome)

  const NoOutput: string := "(executed with no output)"

  /** The input line: trimmed, lower-cased as a whole and split at every single space. */
  function Tokens(cmd: string): (r: seq<string>)
    ensures |r| >= 1
    ensures forall k :: 0 <= k < |r| ==> ' ' !in r[k]
  {
    Split(Lower(Trim(cmd)), ' ')
  }

  /** No token has an upper-case letter: file names typed at the prompt are lower-cased too. */
  lemma TokensLowercase(cmd: string, k: nat, i: nat)
    requires k < |Tokens(cmd)| && i < |Tokens(cmd)[k]|
    ensures !('A' <= Tokens(cmd)[k][i] <= 'Z')
  {
    var t := Lower(Trim(cmd));
    SplitPiecesFrom(t, ' ', k, i);
    var j :| 0 <= j < |t| && t[j] == Tokens(cmd)[k][i];
    assert t[j] == LowerChar(Trim(cmd)[j]);
  }

  /** `userFiles[f]` read with the `!code` guard: nothing for a missing name and for an empty
      text alike. */
  function StoredCode(userFiles: map<string, string>, f: string): (r: Option<string>)
    ensures r.Some? <==> f in userFiles && userFiles[f] != ""
    ensures r.Some? ==> r.value == userFiles[f]
  {
    if f in userFiles && userFiles[f] != "" then Some(userFiles[f]) else None
  }

  function NotFound(f: string): Line
  {
    Line(ErrorLine, "File not found: " + f)
  }

  /** Every string as an output line, in order. */
  function OutputLines(ps: seq<string>): (r: seq<Line>)
    ensures |r| == |ps|
    ensures forall i :: 0 <= i < |ps| ==> r[i] == Line(OutputLine, ps[i])
  {
    seq(|ps|, i requires 0 <= i < |ps| => Line(OutputLine, ps[i]))
  }

  /** The captured console: `log` joins its arguments with spaces, `error` and `warn` put a
      prefix before them. */
  function FormatCall(c: ConsoleCall): string
  {
    match c
    case ConsoleLog(a) => Join(a, " ")
    case ConsoleError(a) => "Error: " + Join(a, " ")
    case ConsoleWarn(a) => "Warning: " + Join(a, " ")
  }

  /** `executeJS`: the file guard, then the evaluation's console lines. A script that throws
      shows only its error message; what it logged before is lost. */
  function ExecuteJs(filename: string, userFiles: map<string, string>, eval: string -> JsOutcome): (r: seq<Line>)
    ensures StoredCode(userFiles, filename).None? ==> r == [NotFound(filename)]
    ensures StoredCode(userFiles, filename).Some? && eval(userFiles[filename]).Threw? ==>
              r == [Line(ErrorLine, "Error: " + eval(userFiles[filename]).message)]
    ensures StoredCode(userFiles, filename).Some? && eval(userFiles[filename]) == Completed([]) ==>
              r == [Line(SuccessLine, NoOutput)]
    ensures StoredCode(userFiles, filename).Some? && eval(userFiles[filename]).Completed? && eval(userFiles[filename]).calls != [] ==>
              var calls := eval(userFiles[filename]).calls;
              |r| == |calls| && forall i :: 0 <= i < |calls| ==> r[i] == Line(OutputLine, FormatCall(calls[i]))
  {
    match StoredCode(userFiles, filename)
    case None => [NotFound(filename)]
    case Some(code) =>
      match eval(code)
      case Threw(_, m) => [Line(ErrorLine, "Error: " + m)]
      case Completed(calls) =>
        if calls == [] then [Line(SuccessLine, NoOutput)]
        else OutputLines(seq(|calls|, i requires 0 <= i < |calls| => FormatCall(calls[i])))
  }

  // ---- the simulated Python runner ----

  predicate IsQuote(c: char)
  {
    c == '\U{22}' || c == '\''
  }

  const Quotes: set<char> := {'\U{22}', '\''}

  /** Text the regular-expression `.*` can match: no line terminator in it. */
  predicate NoTerminator(s: string)
  {
    forall i :: 0 <= i < |s| ==> !IsLineTerminator(s[i])
  }

  /** The `print\s*\(` head of both patterns: the index just past the parenthesis. */
  function PrintOpen(t: string): (r: Option<nat>)
    ensures r.Some? ==> 6 <= r.value <= |t| && StartsWith(t, "print") && t[r.value - 1] == '('
                        && AllSpace(t[5..r.value - 1])
  {
    if StartsWith(t, "print") then
      var w := LeadingSpaces(t[5..]);
      assert t[5..][..w] == t[5..5 + w];
      if 5 + w < |t| && t[5 + w] == '(' then Some(6 + w) else None
    else None
  }

  /** What lies between `print\s*\(` and a closing parenthesis that ends the line. */
  function PrintArgs(t: string): Option<string>
  {
    match PrintOpen(t)
    case None => None
    case Some(k) => if k < |t| && t[|t| - 1] == ')' then Some(t[k..|t| - 1]) else None
  }

  /** From the end: a quote followed by whitespace only; what precedes the quote. */
  function CloseQuote(rest: string): Option<string>
  {
    var w3 := TrailingSpaces(rest);
    if w3 < |rest| && IsQuote(rest[|rest| - w3 - 1]) && NoTerminator(rest[..|rest| - w3 - 1]) then
      Some(rest[..|rest| - w3 - 1])
    else None
  }

  /** `\s*["'](.*)["']\s*` on the text inside the parentheses. */
  function QuotedArg(b: string): Option<string>
  {
    var w2 := LeadingSpaces(b);
    if w2 < |b| && IsQuote(b[w2]) then CloseQuote(b[w2 + 1..]) else None
  }

  /** `/^print\s*\(\s*["'](.*)["']\s*\)$/` on a trimmed line, giving its capture. Greediness
      does not matter: the quotes can only be the first and the last non-blank characters
      inside the parentheses. */
  function QuotedPrint(t: string): Option<string>
  {
    match PrintArgs(t)
    case None => None
    case Some(b) => QuotedArg(b)
  }

  /** `/^print\s*\((.*)\)$/`, giving its capture. */
  function PlainPrint(t: string): Option<string>
  {
    match PrintArgs(t)
    case None => None
    case Some(b) => if NoTerminator(b) then Some(b) else None
  }

  /** The shapes the two patterns describe, with their parts named. */
  function PlainShape(w1: string, args: string): string
  {
    "print" + w1 + "(" + args + ")"
  }

  function OpenShape(w2: string, q1: char, rest: string): string
  {
    w2 + [q1] + rest
  }

  function CloseShape(g: string, q2: char, w3: string): string
  {
    g + [q2] + w3
  }

  /** `t` is matched by the quoted pattern with `g` as the capture. */
  ghost predicate QuotedMatch(t: string, g: string)
  {
    NoTerminator(g) &&
    exists w1, w2, q1, q2, w3 :: AllSpace(w1) && AllSpace(w2) && AllSpace(w3) && IsQuote(q1) && IsQuote(q2)
                                 && t == PlainShape(w1, OpenShape(w2, q1, CloseShape(g, q2, w3)))
  }

  /** `t` is matched by the plain pattern with `g` as the capture. */
  ghost predicate PlainMatch(t: string, g: string)
  {
    NoTerminator(g) && exists w1 :: AllSpace(w1) && t == PlainShape(w1, g)
  }

  /** Leading whitespace stops at the first character that is not whitespace. */
  lemma {:induction false} LeadingSpacesOf(a: string, b: string)
    requires AllSpace(a) && (b == [] || !IsSpace(b[0]))
    ensures LeadingSpaces(a + b) == |a|
  {
    if a != [] {
      assert (a + b)[1..] == a[1..] + b;
      LeadingSpacesOf(a[1..], b);
    }
  }

  lemma {:induction false} TrailingSpacesOf(a: string, b: string)
    requires AllSpace(b) && (a == [] || !IsSpace(a[|a| - 1]))
    ensures TrailingSpaces(a + b) == |b|
  {
    if b != [] {
      assert (a + b)[..|a + b| - 1] == a + b[..|b| - 1];
      TrailingSpacesOf(a, b[..|b| - 1]);
    }
  }

  lemma PrintArgsSound(t: string)
    requires PrintArgs(t).Some?
    ensures AllSpace(t[5..PrintOpen(t).value - 1])
    ensures t == PlainShape(t[5..PrintOpen(t).value - 1], PrintArgs(t).value)
  {
    var k := PrintOpen(t).value;
    assert t[..5] == "print";
    assert t == t[..5] + t[5..k - 1] + [t[k - 1]] + t[k..|t| - 1] + [t[|t| - 1]];
  }

  lemma PrintArgsComplete(w1: string, args: string)
    requires AllSpace(w1)
    ensures PrintArgs(PlainShape(w1, args)) == Some(args)
  {
    var t := PlainShape(w1, args);
    assert t[5..] == w1 + ("(" + args + ")");
    LeadingSpacesOf(w1, "(" + args + ")");
    assert t[..5] == "print";
    assert t[6 + |w1|..|t| - 1] == args;
  }

  lemma CloseQuoteSound(rest: string)
    requires CloseQuote(rest).Some?
    ensures var n := |rest| - TrailingSpaces(rest) - 1;
            IsQuote(rest[n]) && AllSpace(rest[n + 1..]) && NoTerminator(CloseQuote(rest).value)
            && rest == CloseShape(CloseQuote(rest).value, rest[n], rest[n + 1..])
  {
    var w3 := TrailingSpaces(rest);
    var n := |rest| - w3 - 1;
    assert rest[n + 1..] == rest[|rest| - w3..];
    Around(rest, n);
  }

  lemma CloseQuoteComplete(g: string, q2: char, w3: string)
    requires NoTerminator(g) && IsQuote(q2) && AllSpace(w3)
    ensures CloseQuote(CloseShape(g, q2, w3)) == Some(g)
  {
    var rest := CloseShape(g, q2, w3);
    TrailingSpacesOf(g + [q2], w3);
    assert rest[..|rest| - |w3| - 1] == g;
  }

  lemma QuotedArgSound(b: string)
    requires QuotedArg(b).Some?
    ensures var w2 := LeadingSpaces(b);
            AllSpace(b[..w2]) && IsQuote(b[w2]) && b == OpenShape(b[..w2], b[w2], b[w2 + 1..])
            && CloseQuote(b[w2 + 1..]) == QuotedArg(b)
  {
    var w2 := LeadingSpaces(b);
    Around(b, w2);
  }

  lemma QuotedArgComplete(w2: string, q1: char, rest: string)
    requires AllSpace(w2) && IsQuote(q1)
    ensures QuotedArg(OpenShape(w2, q1, rest)) == CloseQuote(rest)
  {
    var b := OpenShape(w2, q1, rest);
    LeadingSpacesOf(w2, [q1] + rest);
    assert b == w2 + ([q1] + rest);
    assert b[|w2| + 1..] == rest;
  }

  /** The text inside the parentheses matches `\s*["'](.*)["']\s*` with `g` as the capture. */
  ghost predicate QuotedArgMatch(b: string, g: string)
  {
    NoTerminator(g) &&
    exists w2, q1, q2, w3 :: AllSpace(w2) && AllSpace(w3) && IsQuote(q1) && IsQuote(q2)
                             && b == OpenShape(w2, q1, CloseShape(g, q2, w3))
  }

  lemma ComposeArg(b: string, w2: string, q1: char, rest: string, g: string, q2: char, w3: string)
    requires AllSpace(w2) && AllSpace(w3) && IsQuote(q1) && IsQuote(q2) && NoTerminator(g)
    requires b == OpenShape(w2, q1, rest) && rest == CloseShape(g, q2, w3)
    ensures QuotedArgMatch(b, g)
  {
    assert b == OpenShape(w2, q1, CloseShape(g, q2, w3));
  }

  lemma ComposeQuoted(t: string, w1: string, b: string, g: string)
    requires AllSpace(w1) && t == PlainShape(w1, b) && QuotedArgMatch(b, g)
    ensures QuotedMatch(t, g)
  {
    var w2, q1, q2, w3 :| AllSpace(w2) && AllSpace(w3) && IsQuote(q1) && IsQuote(q2)
                          && b == OpenShape(w2, q1, CloseShape(g, q2, w3));
    assert t == PlainShape(w1, OpenShape(w2, q1, CloseShape(g, q2, w3)));
  }

  lemma QuotedArgMatchSound(b: string)
    requires QuotedArg(b).Some?
    ensures QuotedArgMatch(b, QuotedArg(b).value)
  {
    QuotedArgSound(b);
    var w2 := LeadingSpaces(b);
    var rest := b[w2 + 1..];
    CloseQuoteSound(rest);
    var n := |rest| - TrailingSpaces(rest) - 1;
    ComposeArg(b, b[..w2], b[w2], rest, QuotedArg(b).value, rest[n], rest[n + 1..]);
  }

  /** Every capture the matcher gives is one the quoted pattern allows. */
  lemma QuotedPrintSound(t: string)
    requires QuotedPrint(t).Some?
    ensures QuotedMatch(t, QuotedPrint(t).value)
  {
    PrintArgsSound(t);
    var b := PrintArgs(t).value;
    QuotedArgMatchSound(b);
    ComposeQuoted(t, t[5..PrintOpen(t).value - 1], b, QuotedPrint(t).value);
  }

  /** Every capture the quoted pattern allows is the one the matcher gives. */
  lemma QuotedPrintComplete(w1: string, w2: string, q1: char, g: string, q2: char, w3: string)
    requires AllSpace(w1) && AllSpace(w2) && AllSpace(w3) && IsQuote(q1) && IsQuote(q2) && NoTerminator(g)
    ensures QuotedPrint(PlainShape(w1, OpenShape(w2, q1, CloseShape(g, q2, w3)))) == Some(g)
  {
    PrintArgsComplete(w1, OpenShape(w2, q1, CloseShape(g, q2, w3)));
    QuotedArgComplete(w2, q1, CloseShape(g, q2, w3));
    CloseQuoteComplete(g, q2, w3);
  }

  /** The matcher finds exactly the captures the quoted pattern allows. */
  lemma QuotedPrintIff(t: string, g: string)
    ensures QuotedPrint(t) == Some(g) <==> QuotedMatch(t, g)
  {
    if QuotedPrint(t) == Some(g) {
      QuotedPrintSound(t);
    }
    if QuotedMatch(t, g) {
      var w1, w2, q1, q2, w3 :| AllSpace(w1) && AllSpace(w2) && AllSpace(w3) && IsQuote(q1) && IsQuote(q2)
                               && t == PlainShape(w1, OpenShape(w2, q1, CloseShape(g, q2, w3)));
      QuotedPrintComplete(w1, w2, q1, g, q2, w3);
    }
  }

  /** The matcher finds exactly the captures the plain pattern allows. */
  lemma PlainPrintIff(t: string, g: string)
    ensures PlainPrint(t) == Some(g) <==> PlainMatch(t, g)
  {
    if PlainPrint(t) == Some(g) {
      PrintArgsSound(t);
    }
    if PlainMatch(t, g) {
      var w1 :| AllSpace(w1) && t == PlainShape(w1, g);
      PrintArgsComplete(w1, g);
    }
  }

  /** What one code line prints: the quoted capture, or else the plain capture with every
      quote character removed, or nothing. */
  function PythonLine(line: string): Option<string>
  {
    var t := Trim(line);
    match QuotedPrint(t)
    case Some(g) => Some(g)
    case None =>
      match PlainPrint(t)
      case Some(g) => Some(RemoveChars(g, Quotes))
      case None => None
  }

  /** In terms of the two patterns: a line prints the quoted capture when the first pattern
      matches, the unquoted plain capture when only the second does, and nothing otherwise. */
  lemma PythonLineByPatterns(line: string, x: string)
    ensures PythonLine(line) == Some(x) <==>
              QuotedMatch(Trim(line), x)
              || ((forall g :: !QuotedMatch(Trim(line), g))
                  && exists g :: PlainMatch(Trim(line), g) && x == RemoveChars(g, Quotes))
  {
    var t := Trim(line);
    QuotedPrintIff(t, x);
    if QuotedPrint(t).Some? {
      var q := QuotedPrint(t).value;
      QuotedPrintIff(t, q);
    } else {
      forall g ensures !QuotedMatch(t, g) {
        QuotedPrintIff(t, g);
      }
      if PlainPrint(t).Some? {
        var p := PlainPrint(t).value;
        PlainPrintIff(t, p);
        forall g | PlainMatch(t, g) ensures g == p {
          PlainPrintIff(t, g);
        }
      } else {
        forall g ensures !PlainMatch(t, g) {
          PlainPrintIff(t, g);
        }
      }
    }
  }

  /** A literal print: `print("text")` prints the text. */
  lemma PrintLiteral(g: string, q1: char, q2: char)
    requires IsQuote(q1) && IsQuote(q2) && NoTerminator(g)
    ensures PythonLine(PlainShape("", OpenShape("", q1, CloseShape(g, q2, "")))) == Some(g)
  {
    var t := PlainShape("", OpenShape("", q1, CloseShape(g, q2, "")));
    assert t[0] == 'p' && t[|t| - 1] == ')';
    TrimUnchanged(t);
    QuotedPrintComplete("", "", q1, g, q2, "");
  }

  /** What `f` gives for each element, in order, skipping elements it gives nothing for; built
      from the last element back, as a loop builds it from the first on. */
  function Collect(ls: seq<string>, f: string -> Option<string>): seq<string>
  {
    if ls == [] then []
    else
      Collect(ls[..|ls| - 1], f) +
      (match f(ls[|ls| - 1]) case Some(x) => [x] case None => [])
  }

  /** Collecting over a concatenation is collecting over each part. */
  lemma {:induction false} CollectConcat(a: seq<string>, b: seq<string>, f: string -> Option<string>)
    ensures Collect(a + b, f) == Collect(a, f) + Collect(b, f)
  {
    if b != [] {
      assert (a + b)[..|a + b| - 1] == a + b[..|b| - 1];
      CollectConcat(a, b[..|b| - 1], f);
    } else {
      assert a + b == a;
    }
  }

  /** One more element adds what `f` gives for it. */
  lemma CollectStep(xs: seq<string>, i: nat, f: string -> Option<string>)
    requires i < |xs|
    ensures Collect(xs[..i + 1], f) == Collect(xs[..i], f) + (match f(xs[i]) case Some(x) => [x] case None => [])
  {
    assert xs[..i + 1][..i] == xs[..i];
  }

  /** An element contributes what `f` gives for it, and nothing else. */
  lemma CollectOne(l: string, f: string -> Option<string>)
    ensures Collect([l], f) == (match f(l) case Some(x) => [x] case None => [])
  {
    assert [l][..0] == [];
  }

  /** The printed text of a program's lines. */
  function PrintedLines(ls: seq<string>): seq<string>
  {
    Collect(ls, PythonLine)
  }

  /** `executePython`, as the result it promises. */
  function PythonResult(filename: string, userFiles: map<string, string>): (r: seq<Line>)
    ensures StoredCode(userFiles, filename).None? ==> r == [NotFound(filename)]
    ensures StoredCode(userFiles, filename).Some? && PrintedLines(Split(userFiles[filename], '\n')) == [] ==>
              r == [Line(SuccessLine, NoOutput)]
    ensures StoredCode(userFiles, filename).Some? && PrintedLines(Split(userFiles[filename], '\n')) != [] ==>
              r == OutputLines(PrintedLines(Split(userFiles[filename], '\n')))
  {
    match StoredCode(userFiles, filename)
    case None => [NotFound(filename)]
    case Some(code) =>
      var printed := PrintedLines(Split(code, '\n'));
      if printed == [] then [Line(SuccessLine, NoOutput)] else OutputLines(printed)
  }

  /** A file just created by the explorer has empty text, so running it reports it missing. */
  lemma FreshFileNotFound(userFiles: map<string, string>, name: string)
    ensures PythonResult(name, userFiles[name := ""]) == [NotFound(name)]
  {
  }

  /** The three outcomes of one code line, in the order the loop tests them. */
  lemma PythonLineOf(line: string)
    ensures QuotedPrint(Trim(line)).Some? ==> PythonLine(line) == QuotedPrint(Trim(line))
    ensures QuotedPrint(Trim(line)).None? && PlainPrint(Trim(line)).Some? ==>
              PythonLine(line) == Some(RemoveChars(PlainPrint(Trim(line)).value, Quotes))
    ensures QuotedPrint(Trim(line)).None? && PlainPrint(Trim(line)).None? ==> PythonLine(line) == None
  {
  }

  /** `executePython`: the line-by-line loop over the file's text. */
  method ExecutePython(filename: string, userFiles: map<string, string>) returns (out: seq<Line>)
    ensures out == PythonResult(filename, userFiles)
  {
    if filename !in userFiles || userFiles[filename] == "" {
      return [NotFound(filename)];
    }
    var codeLines := Split(userFiles[filename], '\n');
    var printed: seq<string> := [];
    var i := 0;
    while i < |codeLines|
      invariant 0 <= i <= |codeLines|
      invariant printed == Collect(codeLines[..i], PythonLine)
    {
      CollectStep(codeLines, i, PythonLine);
      PythonLineOf(codeLines[i]);
      var trimmed := Trim(codeLines[i]);
      var m1 := QuotedPrint(trimmed);
      if m1.Some? {
        printed := printed + [m1.value];
      } else {
        var m2 := PlainPrint(trimmed);
        if m2.Some? {
          printed := printed + [RemoveChars(m2.value, Quotes)];
        }
      }
      i := i + 1;
    }
    assert codeLines[..i] == codeLines;
    if printed == [] {
      out := [Line(SuccessLine, NoOutput)];
    } else {
      out := OutputLines(printed);
    }
  }

  // ---- the command dispatch ----

  /** The lines of the featured projects: a name line, a description line and a tech line
      for each, in order. */
  function ProjectLines(ps: seq<ProjectEntry>): (r: seq<Line>)
    ensures |r| == 3 * CountFeatured(ps)
  {
    if ps == [] then []
    else
      (if ps[0].featured then
         [Line(InfoLine, "  " + ps[0].icon + " " + ps[0].name),
          Line(OutputLine, "     " + ps[0].description),
          Line(OutputLine, "     Tech: " + Join(ps[0].tech, ", ") + "\n")]
       else [])
      + ProjectLines(ps[1..])
  }

  function CountFeatured(ps: seq<ProjectEntry>): nat
  {
    if ps == [] then 0 else (if ps[0].featured then 1 else 0) + CountFeatured(ps[1..])
  }

  /** The command words the dispatch knows, each with its own case; `python` and `python3`
      share a handler. */
  datatype Command =
    | Help | About | Skills | Projects | Contact | GitHub | LinkedIn | Resume | Clear | Ls | Cat
    | Whoami | Date | Neofetch | EchoCmd | Pwd | Npm | Node | Python | Python3 | Run | Open
    | Blank | Unknown

  /** The word of each known command. */
  function CommandWord(c: Command): string
    requires c != Unknown
  {
    match c
    case Help => "help"
    case About => "about"
    case Skills => "skills"
    case Projects => "projects"
    case Contact => "contact"
    case GitHub => "github"
    case LinkedIn => "linkedin"
    case Resume => "resume"
    case Clear => "clear"
    case Ls => "ls"
    case Cat => "cat"
    case Whoami => "whoami"
    case Date => "date"
    case Neofetch => "neofetch"
    case EchoCmd => "echo"
    case Pwd => "pwd"
    case Npm => "npm"
    case Node => "node"
    case Python => "python"
    case Python3 => "python3"
    case Run => "run"
    case Open => "open"
    case Blank => ""
  }

  /** The `switch` on the first token: the case whose word it is, or the default. */
  function Classify(word: string): (r: Command)
    ensures r != Unknown ==> CommandWord(r) == word
  {
    if word == "help" then Help
    else if word == "about" then About
    else if word == "skills" then Skills
    else if word == "projects" then Projects
    else if word == "contact" then Contact
    else if word == "github" then GitHub
    else if word == "linkedin" then LinkedIn
    else if word == "resume" then Resume
    else if word == "clear" then Clear
    else if word == "ls" then Ls
    else if word == "cat" then Cat
    else if word == "whoami" then Whoami
    else if word == "date" then Date
    else if word == "neofetch" then Neofetch
    else if word == "echo" then EchoCmd
    else if word == "pwd" then Pwd
    else if word == "npm" then Npm
    else if word == "node" then Node
    else if word == "python" then Python
    else if word == "python3" then Python3
    else if word == "run" then Run
    else if word == "open" then Open
    else if word == "" then Blank
    else Unknown
  }

  /** Every command's word selects that command: the case labels are all different. */
  lemma ClassifyWord(c: Command)
    requires c != Unknown
    ensures Classify(CommandWord(c)) == c
  {
    if c.Help? || c.About? || c.Skills? || c.Projects? || c.Contact? || c.GitHub? || c.LinkedIn?
       || c.Resume? || c.Clear? || c.Ls? || c.Cat? {
      ClassifyEarlyWord(c);
    } else if c.Whoami? || c.Date? || c.Neofetch? || c.EchoCmd? || c.Pwd? || c.Npm? {
      ClassifyMiddleWord(c);
    } else {
      ClassifyLateWord(c);
    }
  }

  lemma ClassifyEarlyWord(c: Command)
    requires c.Help? || c.About? || c.Skills? || c.Projects? || c.Contact? || c.GitHub? || c.LinkedIn?
             || c.Resume? || c.Clear? || c.Ls? || c.Cat?
    ensures Classify(CommandWord(c)) == c
  {
    match c
    case Help =>
    case About =>
    case Skills =>
    case Projects =>
    case Contact =>
    case GitHub =>
    case LinkedIn =>
    case Resume =>
    case Clear =>
    case Ls =>
    case Cat =>
  }

  lemma ClassifyMiddleWord(c: Command)
    requires c.Whoami? || c.Date? || c.Neofetch? || c.EchoCmd? || c.Pwd? || c.Npm?
    ensures Classify(CommandWord(c)) == c
  {
    match c
    case Whoami =>
    case Date =>
    case Neofetch =>
    case EchoCmd =>
    case Pwd =>
    case Npm =>
  }

  lemma ClassifyLateWord(c: Command)
    requires c.Node? || c.Python? || c.Python3? || c.Run? || c.Open? || c.Blank?
    ensures Classify(CommandWord(c)) == c
  {
    match c
    case Node =>
    case Python =>
    case Python3 =>
    case Run =>
    case Open =>
    case Blank =>
  }

  /** A word reaches the default case exactly when it is no command's word. */
  lemma ClassifyUnknown(word: string)
    ensures Classify(word) == Unknown <==> forall c :: c != Unknown ==> CommandWord(c) != word
  {
    if Classify(word) != Unknown {
      assert CommandWord(Classify(word)) == word;
    } else {
      forall c | c != Unknown
        ensures CommandWord(c) != word
      {
        ClassifyWord(c);
      }
    }
  }

  const PortfolioPath: string := "/portfolio"

  function UnknownCommandMessage(command: string): string
  {
    "Command not found: " + command + ". Type \"help\" for available commands."
  }

  function AboutLines(data: PortfolioInfo): seq<Line>
  {
    [Line(SuccessLine, "\n\U{1F464} " + data.name),
     Line(OutputLine, data.title),
     Line(OutputLine, "\n" + data.tagline),
     Line(InfoLine, "\n\U{1F393} " + data.degree + " @ " + data.university),
     Line(InfoLine, "   Status: " + data.status + "\n")]
  }

  function SkillsLines(data: PortfolioInfo): seq<Line>
  {
    [Line(SuccessLine, "\n\U{1F4BB} Technical Skills\n"),
     Line(InfoLine, "  Languages:"),
     Line(OutputLine, "    " + Join(data.languages, ", ")),
     Line(InfoLine, "  Frameworks:"),
     Line(OutputLine, "    " + Join(data.frameworks, ", ")),
     Line(InfoLine, "  Databases:"),
     Line(OutputLine, "    " + Join(data.databases, ", ")),
     Line(InfoLine, "  Tools:"),
     Line(OutputLine, "    " + Join(data.tools, ", ") + "\n")]
  }

  function ContactLines(data: PortfolioInfo): seq<Line>
  {
    [Line(SuccessLine, "\n\U{1F4EB} Contact Information\n"),
     Line(InfoLine, "  \U{1F4E7} Email:    " + data.email),
     Line(InfoLine, "  \U{1F4BB} GitHub:   github.com/anubhav-n-mishra"),
     Line(InfoLine, "  \U{1F4BC} LinkedIn: linkedin.com/in/anubhav-mishra0"),
     Line(InfoLine, "  \U{1F426} Twitter:  @anubhav_writes\n")]
  }

  const LsLines: seq<Line> := [
    Line(OutputLine, "\ndrwxr-xr-x  src/"),
    Line(OutputLine, "drwxr-xr-x  config/"),
    Line(OutputLine, "-rw-r--r--  README.md"),
    Line(OutputLine, "-rw-r--r--  package.json\n")
  ]

  const NpmDevLines: seq<Line> := [
    Line(InfoLine, "\n> anubhav-portfolio@1.0.0 dev"),
    Line(InfoLine, "> next dev\n"),
    Line(OutputLine, "  \U{25B2} Next.js 14.0.0"),
    Line(OutputLine, "  - Local:        http://localhost:3000/portfolio"),
    Line(OutputLine, "  - Environments: .env\n"),
    Line(SuccessLine, "  \U{2713} Ready in 1.2s"),
    Line(InfoLine, "\nOpening browser...\n")
  ]

  const NpmStartLines: seq<Line> := [
    Line(InfoLine, "\n> anubhav-portfolio@1.0.0 start"),
    Line(InfoLine, "> next start\n"),
    Line(SuccessLine, "  \U{2713} Starting production server..."),
    Line(OutputLine, "  \U{2713} Ready on http://localhost:3000/portfolio"),
    Line(InfoLine, "\nOpening browser...\n")
  ]

  const NpmPortfolioLines: seq<Line> := [
    Line(InfoLine, "\n> anubhav-portfolio@1.0.0 portfolio"),
    Line(InfoLine, "> Opening portfolio website...\n"),
    Line(SuccessLine, "  \U{2713} Ready\n")
  ]

  const NpmInstallLines: seq<Line> := [
    Line(InfoLine, "\nadded 523 packages in 8s\n"),
    Line(SuccessLine, "\U{2713} Packages installed successfully\n")
  ]

  /** `npm`: the three scripts open the portfolio page after a delay, `install` (or `i`)
      only prints, anything else prints the usage. */
  function NpmOutcome(args: seq<string>): (r: Outcome)
    ensures r.effect.DeferredBrowser? || r.effect == NoEffect
    ensures r.effect.DeferredBrowser? ==> r.effect.url == PortfolioPath
  {
    if |args| >= 2 && args[0] == "run" && args[1] == "dev" then Outcome(NpmDevLines, DeferredBrowser(PortfolioPath, 1500))
    else if |args| >= 1 && args[0] == "start" then Outcome(NpmStartLines, DeferredBrowser(PortfolioPath, 1000))
    else if |args| >= 2 && args[0] == "run" && args[1] == "portfolio" then Outcome(NpmPortfolioLines, DeferredBrowser(PortfolioPath, 1000))
    else if |args| >= 1 && (args[0] == "install" || args[0] == "i") then Outcome(NpmInstallLines, NoEffect)
    else Outcome([Line(OutputLine, "Usage: npm run dev | npm start | npm install")], NoEffect)
  }

  function UnsupportedRun(ext: string): Line
  {
    Line(ErrorLine, "Cannot run ." + ext + " files. Supported: .js, .ts, .py")
  }

  /** `run`: the runner is chosen by the file's last extension, lower-cased, before the file
      is looked up. */
  function RunLines(args: seq<string>, userFiles: map<string, string>, eval: string -> JsOutcome): (r: seq<Line>)
    ensures args == [] ==> r == [Line(ErrorLine, "Usage: run <filename>")]
    ensures args != [] && (Extension(args[0]) == "js" || Extension(args[0]) == "ts") ==> r == ExecuteJs(args[0], userFiles, eval)
    ensures args != [] && Extension(args[0]) == "py" ==> r == PythonResult(args[0], userFiles)
    ensures args != [] && Extension(args[0]) !in {"js", "ts", "py"} ==> r == [UnsupportedRun(Extension(args[0]))]
  {
    if args == [] then [Line(ErrorLine, "Usage: run <filename>")]
    else
      var ext := Extension(args[0]);
      if ext == "js" || ext == "ts" then ExecuteJs(args[0], userFiles, eval)
      else if ext == "py" then PythonResult(args[0], userFiles)
      else [UnsupportedRun(ext)]
  }

  /** The address `open` goes to: as typed when it starts with `http`, else under `https://`. */
  function OpenTarget(arg: string): (r: string)
    ensures StartsWith(arg, "http") ==> r == arg
    ensures !StartsWith(arg, "http") ==> r == "https://" + arg
    ensures StartsWith(r, "http")
  {
    if StartsWith(arg, "http") then arg else "https://" + arg
  }

  /** The body of one `case` of the switch. */
  function Dispatch(c: Command, command: string, args: seq<string>, ctx: Context): (r: Outcome)
    ensures r.effect == ClearLog <==> c == Clear
    ensures r.effect.OpenBrowser? <==> c == Open && args != []
    ensures r.effect.OpenWindow? <==> c == GitHub || c == LinkedIn || c == Resume
    ensures r.effect.DeferredBrowser? ==> c == Npm
  {
    match c
    case Help => Outcome([Line(OutputLine, ctx.banners.help)], NoEffect)
    case About => Outcome(AboutLines(ctx.data), NoEffect)
    case Skills => Outcome(SkillsLines(ctx.data), NoEffect)
    case Projects => Outcome([Line(SuccessLine, "\n\U{1F680} Featured Projects\n")] + ProjectLines(ctx.data.projects), NoEffect)
    case Contact => Outcome(ContactLines(ctx.data), NoEffect)
    case GitHub => Outcome([Line(SuccessLine, "Opening GitHub profile...")], OpenWindow(ctx.data.githubUrl))
    case LinkedIn => Outcome([Line(SuccessLine, "Opening LinkedIn profile...")], OpenWindow(ctx.data.linkedinUrl))
    case Resume => Outcome([Line(SuccessLine, "Opening resume PDF...")], OpenWindow("/Anubhav_Mishra.pdf"))
    case Clear => Outcome([], ClearLog)
    case Ls => Outcome(LsLines, NoEffect)
    case Cat =>
      if args == [] then Outcome([Line(ErrorLine, "Usage: cat <filename>")], NoEffect)
      else Outcome([Line(InfoLine, "Use the editor to view " + args[0])], NoEffect)
    case Whoami => Outcome([Line(OutputLine, "guest@anubhav-portfolio")], NoEffect)
    case Date => Outcome([Line(OutputLine, ctx.now)], NoEffect)
    case Neofetch => Outcome([Line(OutputLine, ctx.banners.neofetch)], NoEffect)
    case EchoCmd => Outcome([Line(OutputLine, Join(args, " "))], NoEffect)
    case Pwd => Outcome([Line(OutputLine, "/home/guest/anubhav-portfolio")], NoEffect)
    case Npm => NpmOutcome(args)
    case Node =>
      if args == [] then Outcome([Line(ErrorLine, "Usage: node <filename.js>")], NoEffect)
      else Outcome(ExecuteJs(args[0], ctx.userFiles, ctx.eval), NoEffect)
    case Python | Python3 =>
      if args == [] then Outcome([Line(ErrorLine, "Usage: python <filename.py>")], NoEffect)
      else Outcome(PythonResult(args[0], ctx.userFiles), NoEffect)
    case Run => Outcome(RunLines(args, ctx.userFiles, ctx.eval), NoEffect)
    case Open =>
      if args == [] then Outcome([Line(ErrorLine, "Usage: open <url>")], NoEffect)
      else
        var url := OpenTarget(args[0]);
        Outcome([Line(SuccessLine, "Opening " + url + "...")], OpenBrowser(url))
    case Blank => Outcome([], NoEffect)
    case Unknown => Outcome([Line(ErrorLine, UnknownCommandMessage(command))], NoEffect)
  }

  /** `processCommand`: tokenise, then run the switch on the tokens. */
  function ProcessCommand(cmd: string, ctx: Context): (r: Outcome)
    ensures r.effect == ClearLog <==> Classify(Tokens(cmd)[0]) == Clear
    ensures r.effect.OpenBrowser? <==> Classify(Tokens(cmd)[0]) == Open && |Tokens(cmd)| >= 2
    ensures r.effect.OpenWindow? <==> Classify(Tokens(cmd)[0]) in {GitHub, LinkedIn, Resume}
    ensures r.effect.DeferredBrowser? ==> Classify(Tokens(cmd)[0]) == Npm
  {
    Respond(Tokens(cmd), ctx)
  }

  /** The switch on a tokenised line: the first token picks the case, the rest are its
      arguments. */
  function Respond(parts: seq<string>, ctx: Context): (r: Outcome)
    requires |parts| >= 1
    ensures r.effect == ClearLog <==> Classify(parts[0]) == Clear
    ensures r.effect.OpenBrowser? <==> Classify(parts[0]) == Open && |parts| >= 2
    ensures r.effect.OpenWindow? <==> Classify(parts[0]) in {GitHub, LinkedIn, Resume}
    ensures r.effect.DeferredBrowser? ==> Classify(parts[0]) == Npm
  {
    Dispatch(Classify(parts[0]), parts[0], parts[1..], ctx)
  }

  /** A token spelled as a command's word selects that command. */
  lemma ClassifyOf(w: string, c: Command)
    requires c != Unknown && w == CommandWord(c)
    ensures Classify(w) == c
  {
    ClassifyWord(c);
  }

  lemma TokensOfBlank(cmd: string)
    requires AllSpace(cmd)
    ensures Tokens(cmd) == [""]
  {
    TrimEmptyIff(cmd);
    assert Lower(Trim(cmd)) == [];
  }

  /** The single empty token is the empty command: no lines, no effect. */
  lemma BlankTokens(parts: seq<string>, ctx: Context)
    requires parts == [""]
    ensures Respond(parts, ctx) == Outcome([], NoEffect)
  {
    ClassifyOf(parts[0], Blank);
  }

  /** An input of whitespace only is the empty command. */
  lemma BlankCommand(cmd: string, ctx: Context)
    requires AllSpace(cmd)
    ensures ProcessCommand(cmd, ctx) == Outcome([], NoEffect)
  {
    TokensOfBlank(cmd);
    BlankTokens(Tokens(cmd), ctx);
  }

  /** A first token that is no command's word gives exactly one error line naming it. */
  lemma UnknownCommand(parts: seq<string>, ctx: Context)
    requires |parts| >= 1 && forall c :: c != Unknown ==> CommandWord(c) != parts[0]
    ensures Respond(parts, ctx) == Outcome([Line(ErrorLine, UnknownCommandMessage(parts[0]))], NoEffect)
  {
    UnknownWord(parts[0]);
    UnknownDispatch(parts, ctx);
  }

  lemma UnknownDispatch(parts: seq<string>, ctx: Context)
    requires |parts| >= 1 && Classify(parts[0]) == Unknown
    ensures Respond(parts, ctx) == Outcome([Line(ErrorLine, UnknownCommandMessage(parts[0]))], NoEffect)
  {
  }

  lemma UnknownWord(w: string)
    requires forall c :: c != Unknown ==> CommandWord(c) != w
    ensures Classify(w) == Unknown
  {
    ClassifyUnknown(w);
  }

  lemma TokensOfEcho(cmd: string, rest: string)
    requires Lower(Trim(cmd)) == "echo " + rest
    ensures Tokens(cmd) == ["echo"] + Split(rest, ' ')
  {
    assert "echo " + rest == "echo" + [' '] + rest;
    SplitAfterPiece("echo", rest, ' ');
  }

  /** `echo` prints its arguments joined with single spaces. */
  lemma EchoTokens(parts: seq<string>, ctx: Context)
    requires |parts| >= 1 && parts[0] == "echo"
    ensures Respond(parts, ctx) == Outcome([Line(OutputLine, Join(parts[1..], " "))], NoEffect)
  {
    ClassifyOf(parts[0], EchoCmd);
  }

  /** The arguments after `echo` join back into the text they were split from. */
  lemma EchoArgsJoin(parts: seq<string>, rest: string)
    requires parts == ["echo"] + Split(rest, ' ')
    ensures Join(parts[1..], " ") == rest
  {
    assert parts[1..] == Split(rest, ' ');
    JoinSplit(rest, ' ');
    assert [' '] == " ";
  }

  /** `echo` prints the rest of the lower-cased line after the first space, runs of spaces
      included, since every single space separates a (possibly empty) argument. */
  lemma EchoPrintsRest(cmd: string, rest: string, ctx: Context)
    requires Lower(Trim(cmd)) == "echo " + rest
    ensures ProcessCommand(cmd, ctx) == Outcome([Line(OutputLine, rest)], NoEffect)
  {
    TokensOfEcho(cmd, rest);
    EchoArgsJoin(Tokens(cmd), rest);
    EchoTokens(Tokens(cmd), ctx);
  }

  lemma TrimOfHelloWorld(cmd: string)
    requires cmd == "echo Hello World"
    ensures Trim(cmd) == cmd
  {
    assert cmd[0] == 'e' && cmd[|cmd| - 1] == 'd';
    TrimUnchanged(cmd);
  }

  lemma LowerOfHelloWorld(cmd: string, rest: string)
    requires cmd == "echo Hello World" && rest == "hello world"
    ensures Lower(cmd) == "echo " + rest
  {
    var t := Lower(cmd);
    var u := "echo " + rest;
    assert |t| == |u|;
    assert forall i :: 0 <= i < |t| ==> t[i] == LowerChar(cmd[i]) == u[i];
  }

  /** The typed capitals are lower-cased: `echo Hello World` prints `hello world`. */
  lemma EchoHelloWorld(cmd: string, ctx: Context)
    requires cmd == "echo Hello World"
    ensures ProcessCommand(cmd, ctx) == Outcome([Line(OutputLine, "hello world")], NoEffect)
  {
    TrimOfHelloWorld(cmd);
    LowerOfHelloWorld(cmd, "hello world");
    EchoPrintsRest(cmd, "hello world", ctx);
  }

  /** `run` picks the runner by the file's last extension before looking the file up: any
      other extension is refused even when the file exists. */
  lemma RunDispatch(parts: seq<string>, ctx: Context)
    requires |parts| >= 2 && parts[0] == "run"
    ensures var f := parts[1];
            var ext := Extension(f);
            var r := Respond(parts, ctx);
            r.effect == NoEffect
            && ((ext == "js" || ext == "ts") ==> r.lines == ExecuteJs(f, ctx.userFiles, ctx.eval))
            && (ext == "py" ==> r.lines == PythonResult(f, ctx.userFiles))
            && (ext !in {"js", "ts", "py"} ==> r.lines == [UnsupportedRun(ext)])
  {
    ClassifyOf(parts[0], Run);
  }

  /** `run missing.js` with no such visitor file reports it missing. */
  lemma RunMissingScript(parts: seq<string>, ctx: Context)
    requires |parts| >= 2 && parts[0] == "run" && Extension(parts[1]) == "js"
    requires StoredCode(ctx.userFiles, parts[1]).None?
    ensures Respond(parts, ctx).lines == [NotFound(parts[1])]
  {
    RunDispatch(parts, ctx);
  }

  /** `help` prints the help banner it is given; the page gives it `TerminalBanners`. */
  lemma HelpPrintsBanner(parts: seq<string>, ctx: Context)
    requires |parts| >= 1 && parts[0] == "help"
    ensures Respond(parts, ctx) == Outcome([Line(OutputLine, ctx.banners.help)], NoEffect)
  {
    ClassifyOf(parts[0], Help);
  }

  /** `open` sends the normalised address to the embedded browser and says so. */
  lemma OpenCommand(parts: seq<string>, ctx: Context)
    requires |parts| >= 2 && parts[0] == "open"
    ensures Respond(parts, ctx) ==
              Outcome([Line(SuccessLine, "Opening " + OpenTarget(parts[1]) + "...")], OpenBrowser(OpenTarget(parts[1])))
  {
    ClassifyOf(parts[0], Open);
  }

  /** `npm run dev` prints seven lines and opens the portfolio page after a second and a half. */
  lemma NpmRunDev(parts: seq<string>, ctx: Context)
    requires |parts| >= 3 && parts[0] == "npm" && parts[1] == "run" && parts[2] == "dev"
    ensures |Respond(parts, ctx).lines| == 7
    ensures Respond(parts, ctx).effect == DeferredBrowser(PortfolioPath, 1500)
  {
    ClassifyOf(parts[0], Npm);
  }

  /** `clear` prints nothing and asks for the log to be emptied. */
  lemma ClearCommand(parts: seq<string>, ctx: Context)
    requires |parts| >= 1 && parts[0] == "clear"
    ensures Respond(parts, ctx) == Outcome([], ClearLog)
  {
    ClassifyOf(parts[0], Clear);
  }

  /** Only `clear` empties the log. */
  lemma ClearOnlyFromClear(parts: seq<string>, ctx: Context)
    requires |parts| >= 1
    ensures Respond(parts, ctx).effect == ClearLog <==> parts[0] == "clear"
  {
    if parts[0] == "clear" {
      ClassifyOf(parts[0], Clear);
    }
  }

  /** Only `open` with an address reaches the embedded browser at once. */
  lemma BrowserOnlyFromOpen(parts: seq<string>, ctx: Context)
    requires |parts| >= 1
    ensures Respond(parts, ctx).effect.OpenBrowser? <==> parts[0] == "open" && |parts| >= 2
  {
    if parts[0] == "open" {
      ClassifyOf(parts[0], Open);
    }
  }

  /** Only the three profile commands open a new window. */
  lemma WindowOnlyFromLinks(parts: seq<string>, ctx: Context)
    requires |parts| >= 1
    ensures Respond(parts, ctx).effect.OpenWindow? <==>
              parts[0] == "github" || parts[0] == "linkedin" || parts[0] == "resume"
  {
    var w := parts[0];
    if w == "github" { ClassifyOf(w, GitHub); }
    if w == "linkedin" { ClassifyOf(w, LinkedIn); }
    if w == "resume" { ClassifyOf(w, Resume); }
  }

  /** Only `npm` schedules the portfolio page, and always that page. */
  lemma DeferredOnlyFromNpm(parts: seq<string>, ctx: Context)
    requires |parts| >= 1
    ensures Respond(parts, ctx).effect.DeferredBrowser? ==>
              parts[0] == "npm" && Respond(parts, ctx).effect.url == PortfolioPath
  {
  }

  /** The log line that echoes a submitted input. */
  function Echo(input: string): Line
  {
    Line(InputLine, "$ " + input)
  }

  datatype HistoryKey = ArrowUp | ArrowDown | OtherKey

  /** The prompt: the log, the text being typed, the submitted inputs and the recall cursor
      (-1 when not recalling; otherwise how many entries back from the newest). */
  class Session {
    var lines: seq<Line>
    var input: string
    var history: seq<string>
    var historyIndex: int

    ghost predicate Valid()
      reads this
    {
      -1 <= historyIndex < |history|
    }

    constructor ()
      ensures Valid() && lines == Welcome && input == "" && history == [] && historyIndex == -1
    {
      lines := Welcome;
      input := "";
      history := [];
      historyIndex := -1;
    }

    method SetInput(value: string)
      modifies this`input
      ensures input == value
    {
      input := value;
    }

    /** `handleSubmit` with `clear` emptying the log, as the command promises. A blank input is
        ignored. Otherwise the input is echoed, the command's lines are appended, the raw input
        joins the history and the recall cursor resets. An `open` reaches the store at once;
        windows and deferred opens are handed back to the caller. */
    method Submit(store: EditorState, data: PortfolioInfo, banners: Banners, now: string, eval: string -> JsOutcome)
      returns (pending: Effect)
      requires Valid()
      modifies this, store`simpleBrowserOpen, store`simpleBrowserUrl
      ensures Valid()
      ensures Trim(old(input)) == "" ==>
                lines == old(lines) && input == old(input) && history == old(history)
                && historyIndex == old(historyIndex) && pending == NoEffect
                && store.simpleBrowserOpen == old(store.simpleBrowserOpen)
                && store.simpleBrowserUrl == old(store.simpleBrowserUrl)
      ensures Trim(old(input)) != "" ==>
                var out := ProcessCommand(old(input), Context(data, banners, old(store.userFiles), now, eval));
                (out.effect == ClearLog ==> lines == [])
                && (out.effect != ClearLog ==> lines == old(lines) + [Echo(old(input))] + out.lines)
                && history == old(history) + [old(input)] && historyIndex == -1 && input == ""
                && (out.effect.OpenBrowser? ==> store.simpleBrowserOpen && store.simpleBrowserUrl == out.effect.url)
                && (!out.effect.OpenBrowser? ==> store.simpleBrowserOpen == old(store.simpleBrowserOpen)
                                                 && store.simpleBrowserUrl == old(store.simpleBrowserUrl))
                && pending == (if out.effect.OpenWindow? || out.effect.DeferredBrowser? then out.effect else NoEffect)
    {
      if Trim(input) == "" {
        return NoEffect;
      }
      var out := ProcessCommand(input, Context(data, banners, store.userFiles, now, eval));
      if out.effect.OpenBrowser? {
        store.OpenSimpleBrowser(out.effect.url);
      }
      if out.effect == ClearLog {
        lines := [];
      } else {
        lines := lines + [Echo(input)] + out.lines;
      }
      pending := if out.effect.OpenWindow? || out.effect.DeferredBrowser? then out.effect else NoEffect;
      history := history + [input];
      historyIndex := -1;
      input := "";
    }

    /** `handleSubmit` as written: the command's own `setLines([])` for `clear` is followed by
        the handler's write of the log built from the old lines, and the later write wins, so
        `clear` leaves the log in place with `$ clear` appended. */
    method SubmitAsWritten(store: EditorState, data: PortfolioInfo, banners: Banners, now: string, eval: string -> JsOutcome)
      returns (pending: Effect)
      requires Valid()
      modifies this, store`simpleBrowserOpen, store`simpleBrowserUrl
      ensures Valid()
      ensures Trim(old(input)) == "" ==>
                lines == old(lines) && input == old(input) && history == old(history)
                && historyIndex == old(historyIndex) && pending == NoEffect
                && store.simpleBrowserOpen == old(store.simpleBrowserOpen)
                && store.simpleBrowserUrl == old(store.simpleBrowserUrl)
      ensures Trim(old(input)) != "" ==>
                var out := ProcessCommand(old(input), Context(data, banners, old(store.userFiles), now, eval));
                lines == old(lines) + [Echo(old(input))] + out.lines
                && history == old(history) + [old(input)] && historyIndex == -1 && input == ""
                && (out.effect.OpenBrowser? ==> store.simpleBrowserOpen && store.simpleBrowserUrl == out.effect.url)
                && (!out.effect.OpenBrowser? ==> store.simpleBrowserOpen == old(store.simpleBrowserOpen)
                                                 && store.simpleBrowserUrl == old(store.simpleBrowserUrl))
                && pending == (if out.effect.OpenWindow? || out.effect.DeferredBrowser? then out.effect else NoEffect)
      ensures Trim(old(input)) != "" && Tokens(old(input))[0] == "clear" ==>
                lines == old(lines) + [Echo(old(input))] && |lines| > 0
    {
      if Trim(input) == "" {
        return NoEffect;
      }
      var out := ProcessCommand(input, Context(data, banners, store.userFiles, now, eval));
      if Tokens(input)[0] == "clear" {
        ClearCommand(Tokens(input), Context(data, banners, store.userFiles, now, eval));
      }
      var newLines := lines + [Echo(input)] + out.lines;
      if out.effect == ClearLog {
        lines := [];
      }
      if out.effect.OpenBrowser? {
        store.OpenSimpleBrowser(out.effect.url);
      }
      lines := newLines;
      pending := if out.effect.OpenWindow? || out.effect.DeferredBrowser? then out.effect else NoEffect;
      history := history + [input];
      historyIndex := -1;
      input := "";
    }

    /** `handleKeyDown`: the up arrow recalls one entry further back, stopping at the oldest;
        the down arrow moves back towards the newest and, past it, empties the prompt. */
    method KeyDown(key: HistoryKey)
      requires Valid()
      modifies this`historyIndex, this`input
      ensures Valid()
      ensures key == ArrowUp && old(historyIndex) < |history| - 1 ==>
                historyIndex == old(historyIndex) + 1 && input == history[|history| - 1 - historyIndex]
      ensures key == ArrowDown && old(historyIndex) > 0 ==>
                historyIndex == old(historyIndex) - 1 && input == history[|history| - 1 - historyIndex]
      ensures key == ArrowDown && old(historyIndex) == 0 ==> historyIndex == -1 && input == ""
      ensures (key == OtherKey || (key == ArrowUp && old(historyIndex) == |history| - 1)
               || (key == ArrowDown && old(historyIndex) == -1)) ==>
                historyIndex == old(historyIndex) && input == old(input)
    {
      if key == ArrowUp {
        if historyIndex < |history| - 1 {
          historyIndex := historyIndex + 1;
          input := history[|history| - 1 - historyIndex];
        }
      } else if key == ArrowDown {
        if historyIndex > 0 {
          historyIndex := historyIndex - 1;
          input := history[|history| - 1 - historyIndex];
        } else if historyIndex == 0 {
          historyIndex := -1;
          input := "";
        }
      }
    }

    /** The toolbar's clear button: the only way to empty the log. */
    method ClearButton()
      modifies this`lines
      ensures lines == []
    {
      lines := [];
    }
  }
}
