/** Two pieces of logic from src/extension.ts: the text a drop of files into a
    SuperCollider document inserts, and the order of steps the
    `supercollider.restart` command takes. */
module Extension {
  import opened Text
  import opened Wrappers

  /** One entry of the drop's data transfer: `asFile()` gives the URI path of
      a dropped file, or nothing for entries that are not files. */
  datatype DropItem = DropItem(file: Option<string>)

  /** A path wrapped in double quotes, as an sclang string literal. */
  function Quote(path: string): (r: string)
    ensures |r| == |path| + 2 && r[0] == '"' && r[|r| - 1] == '"' && r[1..|r| - 1] == path
  {
    "\"" + path + "\""
  }

  /** The `files` array the `forEach` builds: one quoted path per item with a
      file, in transfer order. */
  function QuotedFiles(items: seq<DropItem>): (r: seq<string>)
    ensures |r| <= |items|
    decreases |items|
  {
    if |items| == 0 then []
    else
      var init := QuotedFiles(items[..|items| - 1]);
      match items[|items| - 1].file
      case Some(p) => init + [Quote(p)]
      case None => init
  }

  /** The paths of the items that carry a file, in order. */
  function FilePaths(items: seq<DropItem>): seq<string>
    decreases |items|
  {
    if |items| == 0 then []
    else
      var rest := FilePaths(items[1..]);
      match items[0].file
      case Some(p) => [p] + rest
      case None => rest
  }

  /** Every file item contributes its quoted path and every other item nothing,
      in transfer order. */
  lemma {:induction false} QuotedFilesArePaths(items: seq<DropItem>)
    ensures |QuotedFiles(items)| == |FilePaths(items)|
    ensures forall i :: 0 <= i < |FilePaths(items)| ==> QuotedFiles(items)[i] == Quote(FilePaths(items)[i])
    decreases |items|
  {
    if |items| > 0 {
      var init := items[..|items| - 1];
      var last := items[|items| - 1];
      QuotedFilesArePaths(init);
      FilePathsConcat(init, [last]);
      assert init + [last] == items;
      assert [last][1..] == [];
    }
  }

  /** Splitting the transfer splits the paths: order is kept across the whole drop. */
  lemma {:induction false} FilePathsConcat(a: seq<DropItem>, b: seq<DropItem>)
    ensures FilePaths(a + b) == FilePaths(a) + FilePaths(b)
    decreases |a|
  {
    if |a| == 0 {
      assert a + b == b;
    } else {
      FilePathsConcat(a[1..], b);
      assert (a + b)[1..] == a[1..] + b;
    }
  }

  /** The final choice: one file inserts its quoted path, any other number an
      sclang array literal of the quoted paths. */
  function DropText(files: seq<string>): (r: string)
    ensures |files| == 1 ==> r == files[0]
    ensures |files| != 1 ==> |r| >= 2 && r[0] == '[' && r[|r| - 1] == ']'
    ensures |files| == 0 ==> r == "[]"
  {
    if |files| == 1 then files[0] else "[" + Join(files, ", ") + "]"
  }

  /** `provideDocumentDropEdits`: collect the quoted paths, then pick the text
      of the edit. */
  method ProvideDocumentDropEdits(items: seq<DropItem>) returns (text: string)
    ensures text == DropText(QuotedFiles(items))
  {
    var files: seq<string> := [];
    var i := 0;
    while i < |items|
      invariant 0 <= i <= |items|
      invariant files == QuotedFiles(items[..i])
    {
      var file := items[i].file;
      if file.Some? {
        files := files + ["\"" + file.value + "\""];
      }
      assert items[..i + 1][..i] == items[..i];
      i := i + 1;
    }
    assert items[..|items|] == items;
    if |files| == 1 {
      text := files[0];
    } else {
      text := "[" + Join(files, ", ") + "]";
    }
  }

  /** Exactly one file: the edit is that file's quoted path and nothing more. */
  lemma DropOneFile(items: seq<DropItem>)
    requires |FilePaths(items)| == 1
    ensures DropText(QuotedFiles(items)) == Quote(FilePaths(items)[0])
  {
    QuotedFilesArePaths(items);
  }

  /** No file at all gives the empty array literal. */
  lemma DropNoFile(items: seq<DropItem>)
    requires |FilePaths(items)| == 0
    ensures DropText(QuotedFiles(items)) == "[]"
  {
    QuotedFilesArePaths(items);
  }

  /** Two or more files: the quoted paths between brackets, separated by `, `. */
  lemma DropSeveralFiles(items: seq<DropItem>)
    requires |FilePaths(items)| >= 2
    ensures var text := DropText(QuotedFiles(items));
            && text == "[" + Join(QuotedFiles(items), ", ") + "]"
            && text[0] == '[' && text[|text| - 1] == ']'
            && text[1] == '"'
  {
    QuotedFilesArePaths(items);
    JoinStart(QuotedFiles(items), ", ");
  }

  /** The language client as the restart command sees it at one moment. */
  datatype ClientState = NoClient | Client(running: bool)

  /** What the restart command does, in order; `StartMissingClient` is the
      TypeError of calling `start` on an undefined client. */
  datatype RestartStep = Activate | Stop | Start | StartMissingClient

  predicate IsRunning(c: ClientState)
  {
    c.Client? && c.running
  }

  /** The `supercollider.restart` command: `first` is the client when the
      command begins, `second` the client after the activation or the stop,
      which the foreign language client decides. When neither ran, nothing is
      awaited between the two `isRunning()` checks, so both see the same client. */
  function RestartSteps(activated: bool, first: ClientState, second: ClientState): (r: seq<RestartStep>)
    requires activated && !IsRunning(first) ==> second == first
    ensures 1 <= |r| <= 2
    ensures Activate in r <==> !activated
    ensures Stop in r <==> activated && IsRunning(first)
    ensures Start in r <==> second == Client(false)
    ensures StartMissingClient in r <==> second == NoClient
    ensures |r| == 2 ==> r[0] in {Activate, Stop} && r[1] in {Start, StartMissingClient}
  {
    var head := if !activated then [Activate] else if IsRunning(first) then [Stop] else [];
    var tail := match second
                case NoClient => [StartMissingClient]
                case Client(running) => if running then [] else [Start];
    assert Start in tail <==> second == Client(false);
    assert forall s :: s in head + tail <==> s in head || s in tail;
    head + tail
  }

  /** A context that is not activated is activated and never stopped. */
  lemma RestartWhenNotActivated(first: ClientState, second: ClientState)
    ensures RestartSteps(false, first, second)[0] == Activate
    ensures Stop !in RestartSteps(false, first, second)
  {
  }

  /** An activated context with a running client is stopped and, once the
      stop has taken effect, started again. */
  lemma RestartRunningClient()
    ensures RestartSteps(true, Client(true), Client(false)) == [Stop, Start]
  {
  }
}
