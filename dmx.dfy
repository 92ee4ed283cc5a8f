/**
 * The fixture registry of dmx.ts as objects updated in place. The module-level
 * list of fixtures becomes a Registry object, and the serial port becomes its
 * `out` field, the sequence of lines written so far. Every operation is proved
 * to have exactly the effect that module FixtureModel gives it.
 */
module Dmx {
  import opened Wrappers
  import opened ColorPacking
  import opened FixtureModel

  /** A lighting fixture: a name and a fixed number of channels whose values change in place. */
  class Fixture {
    const name: string
    const numChannels: int
    const channels: array<int>
    var redChannel: int
    var greenChannel: int
    var blueChannel: int
    var masterBrightnessChannel: int
    var rgbChannelsSet: bool
    var masterBrightnessChannelSet: bool

    /** The fixture as a value. */
    ghost function State(): FixtureState
      reads this, channels
    {
      FixtureState(name, numChannels, channels[..], redChannel, greenChannel, blueChannel,
                   masterBrightnessChannel, rgbChannelsSet, masterBrightnessChannelSet)
    }

    /** One channel per requested channel, each starting at 0; no RGB or brightness channel set yet. */
    constructor (fixtureName: string, numberChannels: int)
      ensures name == fixtureName && numChannels == numberChannels
      ensures channels.Length == (if numberChannels > 0 then numberChannels else 0)
      ensures forall k :: 0 <= k < channels.Length ==> channels[k] == 0
      ensures !rgbChannelsSet && !masterBrightnessChannelSet
      ensures State() == NewFixture(fixtureName, numberChannels)
      ensures fresh(channels)
    {
      name := fixtureName;
      numChannels := numberChannels;
      var values := new int[if numberChannels > 0 then numberChannels else 0];
      var i := 0;
      while i < numberChannels
        invariant 0 <= i <= values.Length
        invariant forall k :: 0 <= k < i ==> values[k] == 0
      {
        values[i] := 0;
        i := i + 1;
      }
      channels := values;
      redChannel, greenChannel, blueChannel, masterBrightnessChannel := 0, 0, 0, 0;
      rgbChannelsSet := false;
      masterBrightnessChannelSet := false;
    }
  }

  /** All fixtures in creation order and the lines written to the serial port. */
  class Registry {
    var fixtures: seq<Fixture>
    var out: seq<string>
    ghost var model: seq<FixtureState>

    /** The channel arrays of all fixtures. */
    ghost function Channels(): set<array<int>>
      reads this
    {
      set f | f in fixtures :: f.channels
    }

    /** `model` is the value of the fixtures, and no two fixtures share their channels. */
    ghost predicate Valid()
      reads this, fixtures, Channels()
    {
      |model| == |fixtures|
      && (forall i :: 0 <= i < |fixtures| ==> model[i] == fixtures[i].State())
      && (forall i, j :: 0 <= i < j < |fixtures| ==> fixtures[i].channels != fixtures[j].channels)
    }

    /** The registry as a value. */
    ghost function Abs(): Universe
      reads this
    {
      Universe(model, out)
    }

    /** No fixtures and nothing written. */
    constructor ()
      ensures Valid() && Abs() == Empty && fixtures == []
    {
      fixtures := [];
      out := [];
      model := [];
    }

    /** `createFixture`: writes `addFixture:<name>,<numChannels>` and appends a new fixture. */
    method CreateFixture(name: string, numChannels: int)
      requires Valid()
      modifies this
      ensures Valid()
      ensures Abs() == FixtureModel.CreateFixture(old(Abs()), name, numChannels)
      ensures |fixtures| == |old(fixtures)| + 1 && fixtures[..|old(fixtures)|] == old(fixtures)
      ensures fresh(fixtures[|old(fixtures)|]) && fresh(fixtures[|old(fixtures)|].channels)
    {
      var initCommand := AddFixtureLine(name, numChannels);
      out := out + [initCommand];
      var newFixture := new Fixture(name, numChannels);
      fixtures := fixtures + [newFixture];
      model := model + [newFixture.State()];
      assert fixtures[..|old(fixtures)|] == old(fixtures);
    }

    /** `findFixtureByName`: the first fixture with this name, scanning in creation order. */
    method FindFixtureByName(name: string) returns (fixture: Option<Fixture>)
      requires Valid()
      ensures fixture.None? <==> Find(model, name).None?
      ensures fixture.Some? ==> fixture.value == fixtures[Find(model, name).value]
    {
      for i := 0 to |fixtures|
        invariant forall j :: 0 <= j < i ==> fixtures[j].name != name
      {
        if fixtures[i].name == name {
          return Some(fixtures[i]);
        }
      }
      return None;
    }

    /** `fixture.channels[channel].value = value`, which throws (`ok` false) for an index outside the channels. */
    method WriteChannel(ghost i: nat, f: Fixture, channel: int, value: int) returns (ok: bool)
      requires Valid() && i < |fixtures| && fixtures[i] == f
      modifies this`model, f.channels
      ensures Valid()
      ensures match Write(old(model)[i], channel, value)
        case None => !ok && model == old(model)
        case Some(g) => ok && model == old(model)[i := g]
    {
      ok := 0 <= channel < f.channels.Length;
      if ok {
        f.channels[channel] := value;
        model := model[i := f.State()];
      }
    }

    /** `send`: writes `updateChannels`. */
    method Send()
      requires Valid()
      modifies this`out
      ensures Valid()
      ensures Abs() == FixtureModel.Send(old(Abs()))
    {
      out := out + [UpdateChannelsLine];
    }

    /** `updateFixtureChannel`. */
    method UpdateFixtureChannel(name: string, channel: int, value: int) returns (outcome: Outcome)
      requires Valid()
      modifies this, Channels()
      ensures Valid() && fixtures == old(fixtures)
      ensures Step(Abs(), outcome) == FixtureModel.UpdateFixtureChannel(old(Abs()), name, channel, value)
    {
      outcome := Returned;
      var fixture := FindFixtureByName(name);
      if fixture.Some? {
        ghost var i := Find(model, name).value;
        var ok := WriteChannel(i, fixture.value, channel, value);
        if !ok {
          return Threw(channel);
        }
        var updateCommand := SetChannelValueLine(name, channel, value);
        out := out + [updateCommand];
      }
    }

    /** `setRGBChannels`. */
    method SetRGBChannels(name: string, redChannel: int, greenChannel: int, blueChannel: int)
      requires Valid()
      modifies this, fixtures
      ensures Valid() && fixtures == old(fixtures)
      ensures Abs() == FixtureModel.SetRGBChannels(old(Abs()), name, redChannel, greenChannel, blueChannel)
    {
      var fixture := FindFixtureByName(name);
      if fixture.Some? {
        var f := fixture.value;
        ghost var i := Find(model, name).value;
        f.redChannel := redChannel;
        f.greenChannel := greenChannel;
        f.blueChannel := blueChannel;
        f.rgbChannelsSet := true;
        model := model[i := f.State()];
      }
    }

    /** `setBrightnessChannel`. */
    method SetBrightnessChannel(name: string, masterChannel: int)
      requires Valid()
      modifies this, fixtures
      ensures Valid() && fixtures == old(fixtures)
      ensures Abs() == FixtureModel.SetBrightnessChannel(old(Abs()), name, masterChannel)
    {
      var fixture := FindFixtureByName(name);
      if fixture.Some? {
        var f := fixture.value;
        ghost var i := Find(model, name).value;
        f.masterBrightnessChannel := masterChannel;
        f.masterBrightnessChannelSet := true;
        model := model[i := f.State()];
      }
    }

    /** `updateFixtureColor`. */
    method UpdateFixtureColor(name: string, color: int) returns (outcome: Outcome)
      requires Valid()
      modifies this, Channels()
      ensures Valid() && fixtures == old(fixtures)
      ensures Step(Abs(), outcome) == FixtureModel.UpdateFixtureColor(old(Abs()), name, color)
    {
      outcome := Returned;
      var fixture := FindFixtureByName(name);
      if fixture.Some? && fixture.value.rgbChannelsSet {
        var f := fixture.value;
        ghost var u := Abs();
        ghost var i := Find(model, name).value;
        ghost var before := model[i];
        assert before.redChannel == f.redChannel && before.greenChannel == f.greenChannel
          && before.blueChannel == f.blueChannel && before.rgbChannelsSet;
        var rgbValues := HexToRgb(color);
        var red, green, blue := rgbValues[0], rgbValues[1], rgbValues[2];
        outcome := WriteColor(i, f, red, green, blue);
        ghost var w := WriteRGB(before, red, green, blue);
        assert model == u.fixtures[i := w.fixture] && outcome == w.outcome;
        if outcome.Threw? {
          return;
        }
        var updateRedCommand := SetChannelValueLine(name, f.redChannel, red);
        var updateGreenCommand := SetChannelValueLine(name, f.greenChannel, green);
        var updateBlueCommand := SetChannelValueLine(name, f.blueChannel, blue);
        out := out + [updateRedCommand, updateGreenCommand, updateBlueCommand];
        Send();
      }
    }

    /** The red, green and blue channel writes of `updateFixtureColor`, in that order. */
    method WriteColor(ghost i: nat, f: Fixture, red: int, green: int, blue: int) returns (outcome: Outcome)
      requires Valid() && i < |fixtures| && fixtures[i] == f
      modifies this`model, f.channels
      ensures Valid()
      ensures Written(model[i], outcome) == WriteRGB(old(model)[i], red, green, blue)
      ensures model == old(model)[i := model[i]]
    {
      outcome := Returned;
      var ok := WriteChannel(i, f, f.redChannel, red);
      if !ok {
        return Threw(f.redChannel);
      }
      ok := WriteChannel(i, f, f.greenChannel, green);
      if !ok {
        return Threw(f.greenChannel);
      }
      ok := WriteChannel(i, f, f.blueChannel, blue);
      if !ok {
        return Threw(f.blueChannel);
      }
    }

    /** `updateFixtureMasterBrightness`. */
    method UpdateFixtureMasterBrightness(name: string, brightness: int) returns (outcome: Outcome)
      requires Valid()
      modifies this, Channels()
      ensures Valid() && fixtures == old(fixtures)
      ensures Step(Abs(), outcome) == FixtureModel.UpdateFixtureMasterBrightness(old(Abs()), name, brightness)
    {
      outcome := Returned;
      var fixture := FindFixtureByName(name);
      if fixture.Some? && fixture.value.masterBrightnessChannelSet {
        var f := fixture.value;
        ghost var i := Find(model, name).value;
        var ok := WriteChannel(i, f, f.masterBrightnessChannel, brightness);
        if !ok {
          return Threw(f.masterBrightnessChannel);
        }
        var updateBrightnessCommand := SetChannelValueLine(name, f.masterBrightnessChannel, brightness);
        out := out + [updateBrightnessCommand];
        Send();
      }
    }
  }
}
