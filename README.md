# DMX fixture registry and colour packing, modelled in Dafny

This project models the MakeCode extension `dmx.ts`. The extension keeps a list of
lighting fixtures. A fixture is a name plus a fixed number of integer channels, with
optional RGB and master-brightness channel indices. Each operation updates a fixture
in place and writes one-line text commands to the serial port. The file also packs
three 8-bit colour components into a 24-bit colour number, and unpacks it again.

Modules:

- `ColorPacking` (colors.dfy): the `Colors` constants, `rgb` (`Rgb`) and `hexToRgb`
  (`HexToRgb`). JavaScript's bitwise operators work on the 32-bit two's-complement
  pattern of an integer. `x & 0xFF` is therefore `x % 256`, and `(x >> k) & 255` is
  `(x / 2^k) % 256`, with Dafny's Euclidean `/` and `%`. Both facts hold for every
  integer, negative ones included. The round-trip lemmas are proved on this integer form.
- `Decimal` (decimal.dfy): `toString()` of an integer (`IntToString`), proved
  injective through a parser for its output.
- `FixtureModel` (fixture_model.dfy): the registry as a value. `Universe` holds the
  fixtures in creation order and `out`, the lines written to the serial port so far.
  Each exported operation is a function from one `Universe` to the next
  (`CreateFixture`, `UpdateFixtureChannel`, `SetRGBChannels`, `SetBrightnessChannel`,
  `UpdateFixtureColor`, `UpdateFixtureMasterBrightness`, `Send`). `Find` is the
  first-match lookup. The lemmas state what each operation changes and what it writes.
- `Dmx` (dmx.dfy): the imperative form. `Fixture` is a class whose `channels` are an
  `array<int>` filled by the constructor's loop. `Registry` replaces the module-level
  `allFixtures` list and the serial port: its fields `fixtures: seq<Fixture>` and
  `out: seq<string>` are reassigned by its methods. `Valid()` ties a ghost
  `model: seq<FixtureState>` to the objects and keeps the fixtures' channel arrays
  distinct. Each method is proved to take `Abs()` exactly as the matching function of
  `FixtureModel` does.

Writing `fixture.channels[i].value` with an index outside the channel list makes
JavaScript throw, because `channels[i]` is `undefined`. The model returns `Threw(i)`
in that case. Every change made before the throw is kept, and the lines that would
have been written after it are not written. The code checks no channel index, does
not require unique names and does not require a positive channel count. With a
duplicate name the earlier fixture wins every lookup. A channel count of zero or less
gives a fixture without channels, and the count is still written in the `addFixture`
line.

## Model

| member | source | states |
|---|---|---|
| `ColorPacking.Colors` | dmx.ts:204-206 | every named colour is a 24-bit colour number |
| `ColorPacking.ColorsInjective` | dmx.ts:4-21 | two named colours have the same value exactly when they are the same colour |
| `ColorPacking.Rgb` | dmx.ts:195-197 | the packed colour lies in [0, 0xFFFFFF] for any integer inputs |
| `ColorPacking.RgbUsesLowBytesOnly` | dmx.ts:196 | components with equal low bytes pack to the same colour, so only the low 8 bits of each input are used |
| `ColorPacking.HexToRgb` | dmx.ts:208-213 | the result has exactly three components, each in [0, 255] |
| `ColorPacking.RgbRoundTrip` | dmx.ts:195-213 | unpacking `rgb(r, g, b)` returns the low byte of r, g and b, for any integers |
| `ColorPacking.RgbRoundTripInRange` | dmx.ts:195-213 | for r, g, b in [0, 255], `hexToRgb(rgb(r, g, b)) == [r, g, b]` |
| `ColorPacking.HexToRgbRoundTrip` | dmx.ts:195-213 | re-packing the three unpacked components gives the low 24 bits of any integer |
| `ColorPacking.HexToRgbRoundTripInRange` | dmx.ts:195-213 | on [0, 0xFFFFFF], `rgb` applied to `hexToRgb(c)` gives back c |
| `Decimal.IntToString` | dmx.ts:70 | `toString()` of an integer is non-empty and starts with '-' exactly when the integer is negative |
| `Decimal.NatToStringRoundTrip` | dmx.ts:88 | reading back the digits written for a natural number gives that number |
| `Decimal.IntToStringRoundTrip` | dmx.ts:88 | reading back the text written for an integer gives that integer |
| `Decimal.IntToStringInjective` | dmx.ts:88 | two integers are written as the same text exactly when they are equal |
| `FixtureModel.Find` | dmx.ts:215-223 | the result is the lowest position whose fixture has the name, and none exactly when no fixture has it |
| `FixtureModel.NewFixture` | dmx.ts:39-59 | a new fixture has its name and count, max(n, 0) channels all 0, and neither flag set |
| `FixtureModel.Write` | dmx.ts:87 | one channel write succeeds exactly when the index is in range, and then changes that channel alone to the value and no setting |
| `FixtureModel.CreateFixture` | dmx.ts:69-74 | one fixture with the name and zeroed channels is appended after the unchanged earlier ones, and one line after the unchanged earlier output |
| `FixtureModel.Send` | dmx.ts:180-182 | fixtures unchanged; the output gains exactly one line, `updateChannels` |
| `FixtureModel.UpdateFixtureChannel` | dmx.ts:84-91 | never adds, removes, renames or resizes a fixture; a throw changes nothing and names the index; the output gains at most the one `setChannelValue` line for this name, index and value |
| `FixtureModel.SetRGBChannels` | dmx.ts:103-111 | keeps every fixture's name, size and channel values and the output |
| `FixtureModel.SetBrightnessChannel` | dmx.ts:122-128 | keeps every fixture's name, size and channel values and the output |
| `FixtureModel.WriteRGB` | dmx.ts:144-146 | the writes keep every setting; they complete exactly when all three indices are in range, and then each channel holds blue, green or red by that priority (the last write wins) |
| `FixtureModel.UpdateFixtureColor` | dmx.ts:137-155 | never adds, removes, renames or resizes a fixture; a throw writes no line; otherwise the output is unchanged or gains four lines ending with `updateChannels` |
| `FixtureModel.UpdateFixtureMasterBrightness` | dmx.ts:165-173 | never adds, removes, renames or resizes a fixture; a throw changes nothing; otherwise the output is unchanged or gains two lines ending with `updateChannels` |
| `FixtureModel.SameNamesSameFind` | dmx.ts:215-223 | lookup depends only on the fixtures' names in order |
| `FixtureModel.NewFixtureIsBlank` | dmx.ts:39-59 | a new fixture keeps its name and count, has max(n, 0) channels all 0, and neither flag set |
| `FixtureModel.FindAfterAppend` | dmx.ts:73 | appending a fixture keeps every earlier lookup result; the new fixture is found only for a name no earlier fixture has |
| `FixtureModel.CreateFixtureAppends` | dmx.ts:69-74 | `createFixture` appends one blank fixture, keeps all earlier ones, appends exactly `addFixture:<name>,<n>`, and keeps earlier lookups |
| `FixtureModel.DuplicateNameFirstWins` | dmx.ts:215-223 | after two creations with the same new name, lookup finds the first one |
| `FixtureModel.UnknownNameIsNoOp` | dmx.ts:84-173 | with an unknown name all five per-fixture operations change nothing, write nothing and return normally |
| `FixtureModel.UpdateFixtureChannelEffect` | dmx.ts:84-91 | on a known name: it returns normally exactly when the index is in range; then only that channel of the first match changes, to the value, and one `setChannelValue` line is appended; otherwise it throws with nothing changed |
| `FixtureModel.SettersChangeOnlySettings` | dmx.ts:103-128 | the setters change only the first match's index fields and its flag; channels, output and all other fixtures stay unchanged |
| `FixtureModel.FindAfterSetters` | dmx.ts:103-128 | the setters keep every lookup result |
| `FixtureModel.UpdateFixtureColorNeedsRGBChannels` | dmx.ts:137-139 | before `setRGBChannels`, `updateFixtureColor` changes nothing and writes nothing |
| `FixtureModel.UpdateFixtureColorEffect` | dmx.ts:137-155 | with RGB set and indices in range, the channels get the unpacked bytes in the order red, green, blue (a later write wins on a shared index), then three `setChannelValue` lines and `updateChannels` are appended |
| `FixtureModel.UpdateFixtureColorThrows` | dmx.ts:144-146 | an out-of-range RGB index throws at the first bad index in red, green, blue order; earlier writes stay, no line is written |
| `FixtureModel.UpdateFixtureMasterBrightnessEffect` | dmx.ts:165-173 | no-op without the flag; throws on an out-of-range index; otherwise only the brightness channel changes, then one `setChannelValue` line and `updateChannels` |
| `FixtureModel.ColorAfterSetRGBChannels` | dmx.ts:103-155 | after `setRGBChannels` with three distinct in-range indices, `updateFixtureColor` puts the red, green and blue bytes of the colour in those channels and writes the three lines and the flush |
| `FixtureModel.Par1Setup` | dmx.ts:69-111 | creating "par1" with 4 channels and setting RGB channels 0, 1, 2 gives one fixture with four zero channels, RGB on 0, 1, 2, and the single line `addFixture:par1,4` |
| `FixtureModel.Par1RedExample` | dmx.ts:137-155 | setting "par1" to red gives channels [255, 0, 0, 0] and exactly the expected five lines |
| `FixtureModel.Par1OrangeExample` | dmx.ts:137-155 | setting "par1" to 0xFF8000 gives channels [255, 128, 0, 0], ending with `updateChannels` |
| `Dmx.Fixture.constructor` | dmx.ts:39-51 | the channel array has max(n, 0) entries, all 0, neither flag is set, and the state is `NewFixture` |
| `Dmx.Registry.constructor` | dmx.ts:26 | a registry starts with no fixtures and no output |
| `Dmx.Registry.CreateFixture` | dmx.ts:69-74 | the registry gains one new fixture object at the end, with a fresh channel array; the earlier objects stay in place, and the value-level effect (blank fixture, one `addFixture` line) is `FixtureModel.CreateFixture` |
| `Dmx.Registry.FindFixtureByName` | dmx.ts:215-223 | the scan returns the fixture object at `Find`'s position, and none exactly when `Find` finds none |
| `Dmx.Registry.WriteChannel` | dmx.ts:87 | one channel write: in range it updates that channel of that fixture only; out of range it changes nothing and reports the throw |
| `Dmx.Registry.Send` | dmx.ts:180-182 | appends `updateChannels` and changes nothing else |
| `Dmx.Registry.UpdateFixtureChannel` | dmx.ts:84-91 | on the objects, the channel array of the first fixture with the name and the output change exactly as `FixtureModel.UpdateFixtureChannel` says: one channel and one line, a throw with nothing changed, or nothing for an unknown name |
| `Dmx.Registry.SetRGBChannels` | dmx.ts:103-111 | only the first matching fixture object's RGB index fields and flag change, as `FixtureModel.SetRGBChannels` says; no channel or line changes |
| `Dmx.Registry.SetBrightnessChannel` | dmx.ts:122-128 | only the first matching fixture object's brightness index and flag change, as `FixtureModel.SetBrightnessChannel` says |
| `Dmx.Registry.WriteColor` | dmx.ts:144-146 | the red, green and blue writes, in that order, change only that fixture's channels, stop at the first out-of-range index, and match `FixtureModel.WriteRGB` |
| `Dmx.Registry.UpdateFixtureColor` | dmx.ts:137-155 | the channel array of the first matching fixture and the output change exactly as `FixtureModel.UpdateFixtureColor` says: three ordered writes, then three lines and `updateChannels`, or a throw keeping earlier writes, or nothing without the RGB flag |
| `Dmx.Registry.UpdateFixtureMasterBrightness` | dmx.ts:165-173 | the brightness channel of the first matching fixture and the output change exactly as `FixtureModel.UpdateFixtureMasterBrightness` says: one write, one line and `updateChannels`, or a throw, or nothing without the flag |

## Left out

- The serial transport: `serial.writeLine` is modelled only as appending its line to `out`. Delivery, timing and the port itself belong to the host platform.
- The `//%` block annotations and editor metadata: they carry no behaviour.
- JavaScript numbers that are not integers. Names, counts, indices and values are integers. Fractional, NaN or infinite values, and their `toString()` forms, are not modelled. This includes the exponent notation used for magnitudes of 1e21 and above.
- `Channel` objects: each channel is an `int` slot of the fixture's array. The source never shares a `Channel` between fixtures, so no aliasing is lost.
- Reassignment of a fixture's `name`, `numChannels` or `channels` by code outside the extension: these are public fields, and `findFixtureByName` hands out the object itself, but nothing in the extension reassigns them, so the model declares them `const`.
- Index fields before they are set: the source leaves them `undefined`; the model starts them at 0. They are only read after their flag is set, so the difference is never observable.
- The TypeScript `fixture` lookup result as a nullable reference: `FindFixtureByName` returns `Option<Fixture>`.
- DMX512 framing: the code writes text lines only and implements no DMX512 physical or data-link layer.
