/**
 * internal/container/container.go: the descriptor record kept for every
 * declared option and positional argument.
 */
module Container {

  /**
   * What the command layer observes of a `flag.Value` cell from the values
   * package: the text its `String()` returns, whether it implements
   * `values.DefaultValued`, and if so whether `IsDefault()` holds.
   */
  datatype FlagValue = FlagValue(text: string, defaultValued: bool, isDefault: bool)

  /**
   * `container.Container`. `Name` and `Desc` are only ever set when the record
   * is built, so they are constants here; the other fields are updated in place
   * by option registration (`Names`), `Env` (`EnvVar`, `ValueSetFromEnv`),
   * `Hide` (`Hidden`) and the value setters (`Value`).
   */
  class Container {
    const name: string
    const desc: string
    var envVar: string
    var names: seq<string>
    var hidden: bool
    var valueSetFromEnv: bool
    var value: FlagValue

    /** A composite literal `container.Container{Name: name, Desc: desc, Value: value}`. */
    constructor (name: string, desc: string, value: FlagValue)
      ensures this.name == name && this.desc == desc && this.value == value
      ensures envVar == "" && names == [] && !hidden && !valueSetFromEnv
    {
      this.name := name;
      this.desc := desc;
      this.value := value;
      envVar := "";
      names := [];
      hidden := false;
      valueSetFromEnv := false;
    }

    /** A copy of `c`, as made when a `container.Container` is passed by value. */
    constructor Copy(c: Container)
      ensures name == c.name && desc == c.desc && envVar == c.envVar && names == c.names
      ensures hidden == c.hidden && valueSetFromEnv == c.valueSetFromEnv && value == c.value
    {
      name := c.name;
      desc := c.desc;
      envVar := c.envVar;
      names := c.names;
      hidden := c.hidden;
      valueSetFromEnv := c.valueSetFromEnv;
      value := c.value;
    }
  }
}
