/**
 * The fixture registry of dmx.ts as values: what every exported operation
 * does to the list of fixtures and to the sequence of lines written to the
 * serial port. The classes in module Dmx are proved to behave exactly as
 * these functions say.
 *
 * Writing `channels[i].value` for an index outside the fixture's channel list
 * makes JavaScript throw (the element is `undefined`); the model returns
 * `Threw(i)` and keeps every change made before the throw.
 */
module FixtureModel {
  import opened Wrappers
  import opened ColorPacking
  import opened Decimal

  /** One fixture: its name, the channel count it was created with, its channel values, and the RGB and brightness settings. */
  datatype FixtureState = FixtureState(
    name: string,
    numChannels: int,
    channels: seq<int>,
    redChannel: int,
    greenChannel: int,
    blueChannel: int,
    masterBrightnessChannel: int,
    rgbChannelsSet: bool,
    masterBrightnessChannelSet: bool)

  /** All fixtures in creation order, and every line written to the serial port so far. */
  datatype Universe = Universe(fixtures: seq<FixtureState>, out: seq<string>)

  /** How an operation ended: normally, or by the exception an out-of-range channel index raises. */
  datatype Outcome = Returned | Threw(badIndex: int)

  datatype Step = Step(after: Universe, outcome: Outcome)

  /** The registry before any fixture is created. */
  const Empty := Universe([], [])

  /** The line `createFixture` writes. */
  function AddFixtureLine(name: string, numChannels: int): string {
    "addFixture:" + name + "," + IntToString(numChannels)
  }

  /** The line written for one channel update. */
  function SetChannelValueLine(name: string, channel: int, value: int): string {
    "setChannelValue:" + name + "," + IntToString(channel) + "," + IntToString(value)
  }

  /** The line `send` writes. */
  const UpdateChannelsLine := "updateChannels"

  /** Everything about a fixture except its channel values. */
  predicate SameSettings(a: FixtureState, b: FixtureState) {
    a.name == b.name && a.numChannels == b.numChannels
    && a.redChannel == b.redChannel && a.greenChannel == b.greenChannel && a.blueChannel == b.blueChannel
    && a.masterBrightnessChannel == b.masterBrightnessChannel
    && a.rgbChannelsSet == b.rgbChannelsSet && a.masterBrightnessChannelSet == b.masterBrightnessChannelSet
  }

  /** The same fixtures in the same order, with the same names and the same number of channels each. */
  predicate SameLayout(before: seq<FixtureState>, after: seq<FixtureState>) {
    |after| == |before|
    && forall j :: 0 <= j < |before| ==>
         after[j].name == before[j].name && after[j].numChannels == before[j].numChannels
         && |after[j].channels| == |before[j].channels|
  }

  /** A fresh fixture: `numChannels` zero channels (none when it is not positive), no RGB or brightness channel set. */
  function NewFixture(name: string, numChannels: int): (f: FixtureState)
    ensures f.name == name && f.numChannels == numChannels
    ensures |f.channels| == (if numChannels > 0 then numChannels else 0)
    ensures forall k :: 0 <= k < |f.channels| ==> f.channels[k] == 0
    ensures !f.rgbChannelsSet && !f.masterBrightnessChannelSet
  {
    FixtureState(name, numChannels, seq(if numChannels > 0 then numChannels else 0, _ => 0), 0, 0, 0, 0, false, false)
  }

  /** `findFixtureByName`: the position of the first fixture with this name. */
  function Find(fixtures: seq<FixtureState>, name: string): (r: Option<nat>)
    ensures r.Some? ==> r.value < |fixtures| && fixtures[r.value].name == name
    ensures r.Some? ==> forall j :: 0 <= j < r.value ==> fixtures[j].name != name
    ensures r.None? <==> forall j :: 0 <= j < |fixtures| ==> fixtures[j].name != name
  {
    if fixtures == [] then None
    else if fixtures[0].name == name then Some(0)
    else match Find(fixtures[1..], name)
      case None => None
      case Some(i) => Some(i + 1)
  }

  /** `fixture.channels[channel].value = value`: None is the exception an index outside the channels raises. */
  function Write(f: FixtureState, channel: int, value: int): (r: Option<FixtureState>)
    ensures r.Some? <==> 0 <= channel < |f.channels|
    ensures r.Some? ==> SameSettings(r.value, f) && |r.value.channels| == |f.channels|
    ensures r.Some? ==> forall k :: 0 <= k < |f.channels| ==>
      r.value.channels[k] == if k == channel then value else f.channels[k]
  {
    if 0 <= channel < |f.channels| then Some(f.(channels := f.channels[channel := value])) else None
  }

  /** `createFixture`. */
  function CreateFixture(u: Universe, name: string, numChannels: int): (v: Universe)
    ensures |v.fixtures| == |u.fixtures| + 1 && v.fixtures[..|u.fixtures|] == u.fixtures
    ensures v.fixtures[|u.fixtures|].name == name && v.fixtures[|u.fixtures|].channels == seq(if numChannels > 0 then numChannels else 0, _ => 0)
    ensures |v.out| == |u.out| + 1 && v.out[..|u.out|] == u.out
  {
    Universe(u.fixtures + [NewFixture(name, numChannels)], u.out + [AddFixtureLine(name, numChannels)])
  }

  /** `send`. */
  function Send(u: Universe): (v: Universe)
    ensures v.fixtures == u.fixtures
    ensures |v.out| == |u.out| + 1 && v.out[..|u.out|] == u.out && v.out[|u.out|] == "updateChannels"
  {
    u.(out := u.out + [UpdateChannelsLine])
  }

  /** `updateFixtureChannel`. */
  function UpdateFixtureChannel(u: Universe, name: string, channel: int, value: int): (s: Step)
    ensures SameLayout(u.fixtures, s.after.fixtures)
    ensures s.outcome.Threw? ==> s.after == u && s.outcome.badIndex == channel
    ensures s.after.out == u.out || s.after.out == u.out + [SetChannelValueLine(name, channel, value)]
  {
    match Find(u.fixtures, name)
    case None => Step(u, Returned)
    case Some(i) =>
      match Write(u.fixtures[i], channel, value)
      case None => Step(u, Threw(channel))
      case Some(f) =>
        Step(Universe(u.fixtures[i := f], u.out + [SetChannelValueLine(name, channel, value)]), Returned)
  }

  /** `setRGBChannels`. */
  function SetRGBChannels(u: Universe, name: string, red: int, green: int, blue: int): (v: Universe)
    ensures SameLayout(u.fixtures, v.fixtures) && v.out == u.out
    ensures forall j :: 0 <= j < |u.fixtures| ==> v.fixtures[j].channels == u.fixtures[j].channels
  {
    match Find(u.fixtures, name)
    case None => u
    case Some(i) =>
      u.(fixtures := u.fixtures[i := u.fixtures[i].(redChannel := red, greenChannel := green, blueChannel := blue, rgbChannelsSet := true)])
  }

  /** `setBrightnessChannel`. */
  function SetBrightnessChannel(u: Universe, name: string, masterChannel: int): (v: Universe)
    ensures SameLayout(u.fixtures, v.fixtures) && v.out == u.out
    ensures forall j :: 0 <= j < |u.fixtures| ==> v.fixtures[j].channels == u.fixtures[j].channels
  {
    match Find(u.fixtures, name)
    case None => u
    case Some(i) =>
      u.(fixtures := u.fixtures[i := u.fixtures[i].(masterBrightnessChannel := masterChannel, masterBrightnessChannelSet := true)])
  }

  /** A fixture after some channel writes, and whether they all completed. */
  datatype Written = Written(fixture: FixtureState, outcome: Outcome)

  /** The three writes of `updateFixtureColor`, red then green then blue, stopping at the first index out of range. */
  function WriteRGB(f: FixtureState, red: int, green: int, blue: int): (w: Written)
    ensures SameSettings(w.fixture, f) && |w.fixture.channels| == |f.channels|
    ensures w.outcome == Returned <==>
      0 <= f.redChannel < |f.channels| && 0 <= f.greenChannel < |f.channels| && 0 <= f.blueChannel < |f.channels|
    ensures w.outcome == Returned ==> forall k :: 0 <= k < |f.channels| ==>
      w.fixture.channels[k] == if k == f.blueChannel then blue else if k == f.greenChannel then green
                               else if k == f.redChannel then red else f.channels[k]
  {
    match Write(f, f.redChannel, red)
    case None => Written(f, Threw(f.redChannel))
    case Some(f1) =>
      match Write(f1, f.greenChannel, green)
      case None => Written(f1, Threw(f.greenChannel))
      case Some(f2) =>
        match Write(f2, f.blueChannel, blue)
        case None => Written(f2, Threw(f.blueChannel))
        case Some(f3) => Written(f3, Returned)
  }

  /** `updateFixtureColor`: the three writes, then three lines and `send`. */
  function UpdateFixtureColor(u: Universe, name: string, color: int): (s: Step)
    ensures SameLayout(u.fixtures, s.after.fixtures)
    ensures s.outcome.Threw? ==> s.after.out == u.out
    ensures s.after.out == u.out
         || (|s.after.out| == |u.out| + 4 && s.after.out[..|u.out|] == u.out && s.after.out[|u.out| + 3] == "updateChannels")
  {
    match Find(u.fixtures, name)
    case None => Step(u, Returned)
    case Some(i) =>
      var f := u.fixtures[i];
      if !f.rgbChannelsSet then Step(u, Returned)
      else
        var rgb := HexToRgb(color);
        var w := WriteRGB(f, rgb[0], rgb[1], rgb[2]);
        if w.outcome.Threw? then Step(u.(fixtures := u.fixtures[i := w.fixture]), w.outcome)
        else
          var lines := [SetChannelValueLine(name, f.redChannel, rgb[0]),
                        SetChannelValueLine(name, f.greenChannel, rgb[1]),
                        SetChannelValueLine(name, f.blueChannel, rgb[2])];
          Step(Send(Universe(u.fixtures[i := w.fixture], u.out + lines)), Returned)
  }

  /** `updateFixtureMasterBrightness`. */
  function UpdateFixtureMasterBrightness(u: Universe, name: string, brightness: int): (s: Step)
    ensures SameLayout(u.fixtures, s.after.fixtures)
    ensures s.outcome.Threw? ==> s.after == u
    ensures s.after.out == u.out
         || (|s.after.out| == |u.out| + 2 && s.after.out[..|u.out|] == u.out && s.after.out[|u.out| + 1] == "updateChannels")
  {
    match Find(u.fixtures, name)
    case None => Step(u, Returned)
    case Some(i) =>
      var f := u.fixtures[i];
      if !f.masterBrightnessChannelSet then Step(u, Returned)
      else
        match Write(f, f.masterBrightnessChannel, brightness)
        case None => Step(u, Threw(f.masterBrightnessChannel))
        case Some(f1) =>
          var line := SetChannelValueLine(name, f.masterBrightnessChannel, brightness);
          Step(Send(Universe(u.fixtures[i := f1], u.out + [line])), Returned)
  }

  /** `after` is `before` with fixture `i` alone replaced by a fixture with the same settings. */
  predicate OnlyChannelsOf(before: seq<FixtureState>, after: seq<FixtureState>, i: nat) {
    |after| == |before| && i < |before|
    && (forall j :: 0 <= j < |before| && j != i ==> after[j] == before[j])
    && SameSettings(after[i], before[i])
    && |after[i].channels| == |before[i].channels|
  }

  /** A new fixture has one zero channel per requested channel and neither RGB nor brightness channel set. */
  lemma NewFixtureIsBlank(name: string, numChannels: int)
    ensures var f := NewFixture(name, numChannels);
      && f.name == name && f.numChannels == numChannels
      && |f.channels| == (if numChannels > 0 then numChannels else 0)
      && (forall k :: 0 <= k < |f.channels| ==> f.channels[k] == 0)
      && !f.rgbChannelsSet && !f.masterBrightnessChannelSet
  {
  }

  /** Appending a fixture keeps every existing lookup; the new one is found only for a name no earlier fixture has. */
  lemma {:induction false} FindAfterAppend(fixtures: seq<FixtureState>, f: FixtureState, name: string)
    ensures Find(fixtures + [f], name)
         == if Find(fixtures, name).Some? then Find(fixtures, name)
            else if f.name == name then Some(|fixtures|) else None
  {
    if fixtures != [] {
      assert (fixtures + [f])[1..] == fixtures[1..] + [f];
      FindAfterAppend(fixtures[1..], f, name);
    }
  }

  /** `createFixture` appends one fixture and one line and leaves the earlier fixtures in place. */
  lemma CreateFixtureAppends(u: Universe, name: string, numChannels: int, query: string)
    ensures var v := CreateFixture(u, name, numChannels);
      && |v.fixtures| == |u.fixtures| + 1
      && v.fixtures[..|u.fixtures|] == u.fixtures
      && v.fixtures[|u.fixtures|] == NewFixture(name, numChannels)
      && v.out == u.out + ["addFixture:" + name + "," + IntToString(numChannels)]
      && Find(v.fixtures, query)
         == if Find(u.fixtures, query).Some? then Find(u.fixtures, query)
            else if query == name then Some(|u.fixtures|) else None
  {
  }

  /** With two fixtures of the same name, lookups find the one created first. */
  lemma DuplicateNameFirstWins(u: Universe, name: string, n1: int, n2: int)
    requires Find(u.fixtures, name).None?
    ensures Find(CreateFixture(CreateFixture(u, name, n1), name, n2).fixtures, name) == Some(|u.fixtures|)
  {
    CreateFixtureAppends(u, name, n1, name);
    CreateFixtureAppends(CreateFixture(u, name, n1), name, n2, name);
  }

  /** With an unknown name every per-fixture operation changes nothing, writes nothing and returns normally. */
  lemma UnknownNameIsNoOp(u: Universe, name: string, a: int, b: int, c: int)
    requires Find(u.fixtures, name).None?
    ensures UpdateFixtureChannel(u, name, a, b) == Step(u, Returned)
    ensures SetRGBChannels(u, name, a, b, c) == u
    ensures SetBrightnessChannel(u, name, a) == u
    ensures UpdateFixtureColor(u, name, a) == Step(u, Returned)
    ensures UpdateFixtureMasterBrightness(u, name, a) == Step(u, Returned)
  {
  }

  /** `updateFixtureChannel` on a known name: one channel of the first match changes and one line is written, or it throws and nothing changes. */
  lemma UpdateFixtureChannelEffect(u: Universe, name: string, channel: int, value: int)
    requires Find(u.fixtures, name).Some?
    ensures var i := Find(u.fixtures, name).value;
      var s := UpdateFixtureChannel(u, name, channel, value);
      && (s.outcome == Returned <==> 0 <= channel < |u.fixtures[i].channels|)
      && (s.outcome == Returned ==>
            && OnlyChannelsOf(u.fixtures, s.after.fixtures, i)
            && (forall k :: 0 <= k < |u.fixtures[i].channels| ==>
                  s.after.fixtures[i].channels[k] == if k == channel then value else u.fixtures[i].channels[k])
            && s.after.out == u.out + ["setChannelValue:" + name + "," + IntToString(channel) + "," + IntToString(value)])
      && (s.outcome != Returned ==> s == Step(u, Threw(channel)))
  {
  }

  /** The setters record channel indices and the flag of the first matching fixture and change nothing else. */
  lemma SettersChangeOnlySettings(u: Universe, name: string, red: int, green: int, blue: int, master: int)
    requires Find(u.fixtures, name).Some?
    ensures var i := Find(u.fixtures, name).value;
      var v := SetRGBChannels(u, name, red, green, blue);
      var w := SetBrightnessChannel(u, name, master);
      && v.out == u.out && w.out == u.out
      && |v.fixtures| == |u.fixtures| && |w.fixtures| == |u.fixtures|
      && (forall j :: 0 <= j < |u.fixtures| && j != i ==> v.fixtures[j] == u.fixtures[j] && w.fixtures[j] == u.fixtures[j])
      && v.fixtures[i].channels == u.fixtures[i].channels && w.fixtures[i].channels == u.fixtures[i].channels
      && v.fixtures[i].name == name && w.fixtures[i].name == name
      && v.fixtures[i].rgbChannelsSet && w.fixtures[i].masterBrightnessChannelSet
      && v.fixtures[i].redChannel == red && v.fixtures[i].greenChannel == green && v.fixtures[i].blueChannel == blue
      && w.fixtures[i].masterBrightnessChannel == master
      && v.fixtures[i].numChannels == u.fixtures[i].numChannels && w.fixtures[i].numChannels == u.fixtures[i].numChannels
      && v.fixtures[i].masterBrightnessChannel == u.fixtures[i].masterBrightnessChannel
      && v.fixtures[i].masterBrightnessChannelSet == u.fixtures[i].masterBrightnessChannelSet
      && w.fixtures[i].redChannel == u.fixtures[i].redChannel && w.fixtures[i].greenChannel == u.fixtures[i].greenChannel
      && w.fixtures[i].blueChannel == u.fixtures[i].blueChannel
      && w.fixtures[i].rgbChannelsSet == u.fixtures[i].rgbChannelsSet
  {
  }

  /** `updateFixtureColor` does nothing until the fixture's RGB channels are set. */
  lemma UpdateFixtureColorNeedsRGBChannels(u: Universe, name: string, color: int)
    requires Find(u.fixtures, name).Some? && !u.fixtures[Find(u.fixtures, name).value].rgbChannelsSet
    ensures UpdateFixtureColor(u, name, color) == Step(u, Returned)
  {
  }

  /**
   * `updateFixtureColor` with all three indices in range: the channels receive the unpacked
   * components in the order red, green, blue (a later write wins on a shared index), then three
   * lines and the flush line are written.
   */
  lemma UpdateFixtureColorEffect(u: Universe, name: string, color: int)
    requires Find(u.fixtures, name).Some?
    requires var f := u.fixtures[Find(u.fixtures, name).value];
      && f.rgbChannelsSet
      && 0 <= f.redChannel < |f.channels| && 0 <= f.greenChannel < |f.channels| && 0 <= f.blueChannel < |f.channels|
    ensures var i := Find(u.fixtures, name).value;
      var f := u.fixtures[i];
      var s := UpdateFixtureColor(u, name, color);
      && s.outcome == Returned
      && OnlyChannelsOf(u.fixtures, s.after.fixtures, i)
      && (forall k :: 0 <= k < |f.channels| ==>
            s.after.fixtures[i].channels[k]
            == if k == f.blueChannel then color % 0x100
               else if k == f.greenChannel then (color / 0x100) % 0x100
               else if k == f.redChannel then (color / 0x10000) % 0x100
               else f.channels[k])
      && s.after.out == u.out + [
           SetChannelValueLine(name, f.redChannel, (color / 0x10000) % 0x100),
           SetChannelValueLine(name, f.greenChannel, (color / 0x100) % 0x100),
           SetChannelValueLine(name, f.blueChannel, color % 0x100),
           "updateChannels"]
  {
  }

  /**
   * `updateFixtureColor` with an index out of range throws at the first such index (red, then green,
   * then blue), keeps the writes made before it and writes no line.
   */
  lemma UpdateFixtureColorThrows(u: Universe, name: string, color: int)
    requires Find(u.fixtures, name).Some?
    requires var f := u.fixtures[Find(u.fixtures, name).value];
      && f.rgbChannelsSet
      && !(0 <= f.redChannel < |f.channels| && 0 <= f.greenChannel < |f.channels| && 0 <= f.blueChannel < |f.channels|)
    ensures var i := Find(u.fixtures, name).value;
      var f := u.fixtures[i];
      var s := UpdateFixtureColor(u, name, color);
      && s.after.out == u.out
      && s.outcome == Threw(if !(0 <= f.redChannel < |f.channels|) then f.redChannel
                            else if !(0 <= f.greenChannel < |f.channels|) then f.greenChannel
                            else f.blueChannel)
      && OnlyChannelsOf(u.fixtures, s.after.fixtures, i)
      && (!(0 <= f.redChannel < |f.channels|) ==> s.after == u)
      && (0 <= f.redChannel < |f.channels| && !(0 <= f.greenChannel < |f.channels|) ==>
            s.after.fixtures[i].channels == f.channels[f.redChannel := (color / 0x10000) % 0x100])
      && (0 <= f.redChannel < |f.channels| && 0 <= f.greenChannel < |f.channels| ==>
            s.after.fixtures[i].channels
            == f.channels[f.redChannel := (color / 0x10000) % 0x100][f.greenChannel := (color / 0x100) % 0x100])
  {
  }

  /** `updateFixtureMasterBrightness`: only the brightness channel changes, then one line and the flush line. */
  lemma UpdateFixtureMasterBrightnessEffect(u: Universe, name: string, brightness: int)
    requires Find(u.fixtures, name).Some?
    ensures var i := Find(u.fixtures, name).value;
      var f := u.fixtures[i];
      var s := UpdateFixtureMasterBrightness(u, name, brightness);
      && (!f.masterBrightnessChannelSet ==> s == Step(u, Returned))
      && (f.masterBrightnessChannelSet && !(0 <= f.masterBrightnessChannel < |f.channels|) ==>
            s == Step(u, Threw(f.masterBrightnessChannel)))
      && (f.masterBrightnessChannelSet && 0 <= f.masterBrightnessChannel < |f.channels| ==>
            && s.outcome == Returned
            && OnlyChannelsOf(u.fixtures, s.after.fixtures, i)
            && (forall k :: 0 <= k < |f.channels| ==>
                  s.after.fixtures[i].channels[k] == if k == f.masterBrightnessChannel then brightness else f.channels[k])
            && s.after.out == u.out + [SetChannelValueLine(name, f.masterBrightnessChannel, brightness), "updateChannels"])
  {
  }

  /** After `setRGBChannels` with three distinct in-range indices, `updateFixtureColor` puts each component of the colour in its channel. */
  lemma ColorAfterSetRGBChannels(u: Universe, name: string, red: int, green: int, blue: int, color: int)
    requires Find(u.fixtures, name).Some?
    requires var n := |u.fixtures[Find(u.fixtures, name).value].channels|;
      0 <= red < n && 0 <= green < n && 0 <= blue < n && red != green && green != blue && red != blue
    ensures var i := Find(u.fixtures, name).value;
      var s := UpdateFixtureColor(SetRGBChannels(u, name, red, green, blue), name, color);
      && s.outcome == Returned
      && |s.after.fixtures| == |u.fixtures|
      && s.after.fixtures[i].channels[red] == HexToRgb(color)[0]
      && s.after.fixtures[i].channels[green] == HexToRgb(color)[1]
      && s.after.fixtures[i].channels[blue] == HexToRgb(color)[2]
      && s.after.out == u.out + [
           SetChannelValueLine(name, red, HexToRgb(color)[0]),
           SetChannelValueLine(name, green, HexToRgb(color)[1]),
           SetChannelValueLine(name, blue, HexToRgb(color)[2]),
           UpdateChannelsLine]
  {
  }

  /** The setters keep every fixture's name, so lookups afterwards find the same fixture. */
  lemma FindAfterSetters(u: Universe, name: string, red: int, green: int, blue: int, query: string)
    ensures Find(SetRGBChannels(u, name, red, green, blue).fixtures, query) == Find(u.fixtures, query)
    ensures Find(SetBrightnessChannel(u, name, red).fixtures, query) == Find(u.fixtures, query)
  {
    SameNamesSameFind(u.fixtures, SetRGBChannels(u, name, red, green, blue).fixtures, query);
    SameNamesSameFind(u.fixtures, SetBrightnessChannel(u, name, red).fixtures, query);
  }

  /** Lookup depends on the names alone. */
  lemma SameNamesSameFind(a: seq<FixtureState>, b: seq<FixtureState>, name: string)
    requires |a| == |b| && forall j :: 0 <= j < |a| ==> a[j].name == b[j].name
    ensures Find(a, name) == Find(b, name)
  {
  }

  /** The registry after creating "par1" with four channels and making channels 0, 1, 2 its RGB channels. */
  const Par1 := Universe([FixtureState("par1", 4, [0, 0, 0, 0], 0, 1, 2, 0, true, false)], ["addFixture:par1,4"])

  lemma Par1Setup()
    ensures SetRGBChannels(CreateFixture(Empty, "par1", 4), "par1", 0, 1, 2) == Par1
  {
    assert IntToString(4) == "4";
    assert AddFixtureLine("par1", 4) == "addFixture:" + "par1" + "," + "4";
    assert AddFixtureLine("par1", 4) == "addFixture:par1,4";
    assert NewFixture("par1", 4).channels == [0, 0, 0, 0];
  }

  /** Setting "par1" to red: channels 255, 0, 0 and the fourth untouched; three channel lines and a flush. */
  lemma Par1RedExample()
    ensures var s := UpdateFixtureColor(Par1, "par1", Colors(Red));
      && s.outcome == Returned
      && s.after.fixtures[0].channels == [255, 0, 0, 0]
      && s.after.out == ["addFixture:par1,4", "setChannelValue:par1,0,255", "setChannelValue:par1,1,0",
                         "setChannelValue:par1,2,0", "updateChannels"]
  {
    assert Find(Par1.fixtures, "par1") == Some(0);
    assert HexToRgb(0xFF0000) == [255, 0, 0];
    assert IntToString(255) == "255" by {
      assert NatToString(25) == "25" by { assert NatToString(2) == "2"; }
    }
    assert IntToString(0) == "0" && IntToString(1) == "1" && IntToString(2) == "2";
    assert SetChannelValueLine("par1", 0, 255) == "setChannelValue:" + "par1" + "," + "0" + "," + "255";
    assert SetChannelValueLine("par1", 0, 255) == "setChannelValue:par1,0,255";
    assert SetChannelValueLine("par1", 1, 0) == "setChannelValue:par1,1,0";
    assert SetChannelValueLine("par1", 2, 0) == "setChannelValue:par1,2,0";
    assert WriteRGB(Par1.fixtures[0], 255, 0, 0).fixture.channels == [255, 0, 0, 0];
  }

  /** Setting "par1" to 0xFF8000: channels 255, 128, 0 followed by a flush. */
  lemma Par1OrangeExample()
    ensures var s := UpdateFixtureColor(Par1, "par1", 0xFF8000);
      && s.outcome == Returned
      && s.after.fixtures[0].channels == [255, 128, 0, 0]
      && s.after.out[|s.after.out| - 1] == "updateChannels"
  {
    assert Find(Par1.fixtures, "par1") == Some(0);
    assert HexToRgb(0xFF8000) == [255, 128, 0];
    assert WriteRGB(Par1.fixtures[0], 255, 128, 0).fixture.channels == [255, 128, 0, 0];
  }
}
