/** Value types shared by the server-side database, the React chart and the
    fetch-based browser script: liquids, liquid classes and their six
    pipetting parameters. */
module Records {

  datatype Option<+T> = None | Some(value: T)

  /** One pipetting parameter of a liquid class: a short label (`label` in the
      source; the word is reserved in Dafny), a human range
      and the free-text block of Venus instrument settings. */
  datatype ParameterSettings = ParameterSettings(labelText: string, value: string, venusSettings: string)

  /** A multi-line text: the lines joined by line feeds, with no trailing
      line feed (the shape of every Venus settings block). */
  function Lines(lines: seq<string>): string {
    if lines == [] then ""
    else if |lines| == 1 then lines[0]
    else lines[0] + "\n" + Lines(lines[1..])
  }

  /** A multi-line text begins with its first line. */
  lemma LinesBeginWithFirst(lines: seq<string>)
    requires lines != []
    ensures lines[0] <= Lines(lines)
  {
    if |lines| > 1 {
      var rest := "\n" + Lines(lines[1..]);
      assert Lines(lines) == lines[0] + rest;
      assert Lines(lines)[..|lines[0]|] == lines[0];
    }
  }

  /** The six parameter kinds every liquid class carries. */
  datatype Param = PSpeed | DSpeed | AirGap | Blowout | ZOffset | Tips

  const AllParams: seq<Param> := [PSpeed, DSpeed, AirGap, Blowout, ZOffset, Tips]

  datatype LiquidClass = LiquidClass(
    name: string,
    description: string,
    pSpeed: ParameterSettings,
    dSpeed: ParameterSettings,
    airGap: ParameterSettings,
    blowout: ParameterSettings,
    zOffset: ParameterSettings,
    tips: ParameterSettings)
  {
    /** The total mapping from parameter kind to its settings. */
    function Setting(p: Param): ParameterSettings {
      match p
      case PSpeed => pSpeed
      case DSpeed => dSpeed
      case AirGap => airGap
      case Blowout => blowout
      case ZOffset => zOffset
      case Tips => tips
    }
  }

  /** A liquid record. The molar weight is a string in the Python database and
      a number or a dash in the React component, hence the type parameter. */
  datatype Liquid<W> = Liquid(
    name: string,
    density: real,
    viscosity: real,
    molarWeight: W,
    liquidClass: string,
    notes: string)

  /** What a JavaScript property read `record[key]` yields on a liquid class
      object: one of the six parameter objects, one of the two string fields
      (`name`, `description`), or `undefined`. */
  datatype Prop = Settings(settings: ParameterSettings) | Str(text: string) | Missing

  /** JavaScript truthiness of such a property: objects are truthy, strings
      are truthy when non-empty, `undefined` is falsy. */
  predicate Truthy(p: Prop) {
    match p
    case Settings(_) => true
    case Str(s) => s != ""
    case Missing => false
  }

  /** The property read `record[key]` for a naming scheme `keys` that maps the
      six parameter property names to their kinds. */
  function PropOf(c: LiquidClass, keys: map<string, Param>, key: string): Prop {
    if key == "name" then Str(c.name)
    else if key == "description" then Str(c.description)
    else if key in keys then Settings(c.Setting(keys[key]))
    else Missing
  }

  /** `record[key].venus_settings` (or `.venusSettings`) shown as text: the
      settings block of a parameter object; a string has no such property and
      `undefined` is shown as the empty text. */
  function VenusText(p: Prop): string {
    if p.Settings? then p.settings.venusSettings else ""
  }

  /** The text of a parameter tile: the label followed by the value in
      parentheses. */
  function TileText(s: ParameterSettings): string {
    s.labelText + " (" + s.value + ")"
  }
}
