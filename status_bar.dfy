/** The server status item of src/ServerStatusBar.ts: how one status report
    from sclang becomes the item's command, tooltip and text. The locale-aware
    two-decimal percent formatting is foreign and is passed in as a function. */
module StatusBar {
  import opened Text
  import opened Wrappers

  const ItemName := "Supercollider Server Status"

  const WarningIcon := "$(warning)"
  const PlayIcon := "$(play)"
  const StopIcon := "$(primitive-square)"

  const RebootCommand := "supercollider.internal.rebootServer"
  const KillAllCommand := "supercollider.internal.killAllServers"
  const BootCommand := "supercollider.internal.bootServer"

  const UnresponsiveTooltip := "Server is unresponsive. Click to restart."
  const RunningTooltip := "Server is running. Click to stop."
  const StoppedTooltip := "Server is not running. Click to start."

  /** `ServerStatusBarData`; the counts are whole numbers. */
  datatype ServerStatusBarData = ServerStatusBarData(
    name: Option<string>,
    running: bool,
    unresponsive: bool,
    avgCPU: real,
    peakCPU: real,
    numUGens: nat,
    numSynths: nat,
    numGroups: nat,
    numSynthDefs: nat)

  /** The values displayed: a stopped server shows as responsive with zero
      load and zero counts. */
  function Displayed(d: ServerStatusBarData): (r: ServerStatusBarData)
    ensures r.running == d.running && r.name == d.name
    ensures d.running ==> r == d
    ensures !d.running ==> !r.unresponsive && r.avgCPU == 0.0 && r.peakCPU == 0.0
    ensures !d.running ==> r.numUGens == 0 && r.numSynths == 0 && r.numGroups == 0 && r.numSynthDefs == 0
  {
    if d.running then d
    else d.(unresponsive := false, avgCPU := 0.0, peakCPU := 0.0,
            numUGens := 0, numSynths := 0, numGroups := 0, numSynthDefs := 0)
  }

  /** The three states the item distinguishes, in priority order. */
  datatype ServerState = Unresponsive | Running | Stopped

  /** The `unresponsive` flag wins over `running`. */
  function StateOf(d: ServerStatusBarData): (r: ServerState)
    ensures r == Unresponsive <==> d.unresponsive
    ensures r == Running <==> d.running && !d.unresponsive
    ensures r == Stopped <==> !d.running && !d.unresponsive
  {
    if d.unresponsive then Unresponsive else if d.running then Running else Stopped
  }

  /** A codicon reference `$(name)`. */
  function Icon(s: ServerState): (r: string)
    ensures |r| >= 4 && r[..2] == "$(" && r[|r| - 1] == ')'
  {
    match s
    case Unresponsive => WarningIcon
    case Running => PlayIcon
    case Stopped => StopIcon
  }

  /** One of the extension's internal server commands. */
  function Command(s: ServerState): (r: string)
    ensures "supercollider.internal." <= r && |r| > |"supercollider.internal."|
  {
    match s
    case Unresponsive => RebootCommand
    case Running => KillAllCommand
    case Stopped => BootCommand
  }

  /** A sentence about the server followed by what a click does. */
  function Tooltip(s: ServerState): (r: string)
    ensures "Server is " <= r && r[|r| - 1] == '.'
  {
    match s
    case Unresponsive => UnresponsiveTooltip
    case Running => RunningTooltip
    case Stopped => StoppedTooltip
  }

  /** The text: icon, average and peak load in percent, then the UGen, synth,
      group and SynthDef counts with their one-letter suffixes. */
  function StatusText(icon: string, avg: string, peak: string, d: ServerStatusBarData): (r: string)
    ensures icon + " " <= r && r[|r| - 1] == 'd'
    ensures var tail := NatToString(d.numSynthDefs) + "d";
            |r| >= |tail| && r[|r| - |tail|..] == tail
  {
    icon + " " + avg + "% " + peak + "% " + NatToString(d.numUGens) + "u " + NatToString(d.numSynths) + "s "
      + NatToString(d.numGroups) + "g " + NatToString(d.numSynthDefs) + "d"
  }

  /** The state shown for a report: a stopped server is shown stopped whatever
      its `unresponsive` flag says, and an unresponsive flag wins over running. */
  lemma ShownState(d: ServerStatusBarData)
    ensures StateOf(Displayed(d)) == Stopped <==> !d.running
    ensures StateOf(Displayed(d)) == Unresponsive <==> d.running && d.unresponsive
    ensures StateOf(Displayed(d)) == Running <==> d.running && !d.unresponsive
  {
  }

  /** The three states get three different icons, commands and tooltips, so
      the tooltip always changes together with the command. */
  lemma SelectionsDistinguishStates(s: ServerState, t: ServerState)
    ensures Icon(s) == Icon(t) <==> s == t
    ensures Command(s) == Command(t) <==> s == t
    ensures Tooltip(s) == Tooltip(t) <==> s == t
  {
    assert WarningIcon[2] == 'w' && PlayIcon[2] == 'p' && StopIcon[3] == 'r';
    assert RebootCommand[23] == 'r' && KillAllCommand[23] == 'k' && BootCommand[23] == 'b';
    assert UnresponsiveTooltip[10] == 'u' && RunningTooltip[10] == 'r' && StoppedTooltip[10] == 'n';
  }

  /** A stopped server's text ends with four zero counts. */
  lemma StoppedTextCounts(avg: string, peak: string, d: ServerStatusBarData)
    requires !d.running
    ensures var text := StatusText(Icon(StateOf(Displayed(d))), avg, peak, Displayed(d));
            text == StopIcon + " " + avg + "% " + peak + "% " + "0u 0s 0g 0d"
  {
  }

  class ServerStatusBar {
    const name: string
    var command: string
    var tooltip: string
    var text: string
    var visible: bool

    /** The constructor names the item and shows it. A new VS Code status-bar
        item has no command and no tooltip (`undefined`); the model starts
        them, and the text, as empty strings. */
    constructor ()
      ensures name == ItemName && visible
      ensures command == "" && tooltip == "" && text == ""
    {
      name := ItemName;
      command := "";
      tooltip := "";
      text := "";
      visible := true;
    }

    /** `updateStatusBar(data)`: zero a stopped server's figures, then write
        the command, the tooltip and the text, and nothing else. */
    method UpdateStatusBar(data: ServerStatusBarData, formatPercent: real -> string)
      modifies this`command, this`tooltip, this`text
      ensures var shown := Displayed(data);
              && command == Command(StateOf(shown))
              && tooltip == Tooltip(StateOf(shown))
              && text == StatusText(Icon(StateOf(shown)), formatPercent(shown.avgCPU), formatPercent(shown.peakCPU), shown)
    {
      var running, unresponsive := data.running, data.unresponsive;
      var avgCPU, peakCPU := data.avgCPU, data.peakCPU;
      var numUGens, numSynths, numGroups, numSynthDefs := data.numUGens, data.numSynths, data.numGroups, data.numSynthDefs;
      if !running {
        unresponsive := false;
        avgCPU := 0.0;
        peakCPU := 0.0;
        numUGens := 0;
        numSynths := 0;
        numGroups := 0;
        numSynthDefs := 0;
      }
      var icon := if unresponsive then WarningIcon else if running then PlayIcon else StopIcon;
      command := if unresponsive then RebootCommand else if running then KillAllCommand else BootCommand;
      tooltip := if unresponsive then UnresponsiveTooltip else if running then RunningTooltip else StoppedTooltip;
      var avgCPUFormatted := formatPercent(avgCPU);
      var peakCPUFormatted := formatPercent(peakCPU);
      text := icon + " " + avgCPUFormatted + "% " + peakCPUFormatted + "% " + NatToString(numUGens) + "u "
        + NatToString(numSynths) + "s " + NatToString(numGroups) + "g " + NatToString(numSynthDefs) + "d";
    }
  }
}
