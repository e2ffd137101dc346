/**
 * Reading warehouse credentials from the dbt profiles file: the
 * "healthcare_analytics" profile's `dev` output, with a default for every
 * missing field. Two scripts carry their own copy of this reader; they differ
 * only in the default role, which is therefore a parameter here.
 *
 * The file is an input: missing, unreadable (open or parse error), or parsed
 * into a tree of nodes.
 */
module Profiles {
  import opened Common

  /** A node of the parsed document. `Other` is any node that is neither a
      mapping nor a string: null, a number, a boolean or a list. */
  datatype Node = Text(text: string) | Mapping(entries: map<string, Node>) | Other

  datatype ProfilesFile = Missing | Unreadable | Parsed(root: Node)

  datatype Credentials = Credentials(
    account: string, user: string, password: string,
    database: string, warehouse: string, role: string)

  const ProfileName := "healthcare_analytics"
  const DefaultDatabase := "HEALTHCARE_ANALYTICS"
  const DefaultWarehouse := "transforming_wh"

  /** The `dev` output of the profile, or `None` when the lookup finds no
      profile or would raise (a node of the wrong kind, no "outputs" key). A
      missing `dev` output reads as an empty mapping. */
  function DevOutput(file: ProfilesFile): (dev: Option<map<string, Node>>)
    ensures file.Missing? || file.Unreadable? ==> dev.None?
    ensures file.Parsed? && !(file.root.Mapping? && ProfileName in file.root.entries) ==> dev.None?
  {
    if !(file.Parsed? && file.root.Mapping?) then None
    else
      var profiles := file.root.entries;
      if ProfileName !in profiles then None
      else
        var profile := profiles[ProfileName];
        if !(profile.Mapping? && "outputs" in profile.entries) then None
        else
          var outputs := profile.entries["outputs"];
          if !outputs.Mapping? then None
          else if "dev" !in outputs.entries then Some(map[])
          else if outputs.entries["dev"].Mapping? then Some(outputs.entries["dev"].entries)
          else None
  }

  /** `dev.get(key, default)` for a text field. A field holding a non-text
      node reads as "". */
  function Field(dev: map<string, Node>, key: string, default: string): (v: string)
    ensures key !in dev ==> v == default
    ensures key in dev && dev[key].Text? ==> v == dev[key].text
  {
    if key !in dev then default
    else
      match dev[key]
      case Text(s) => s
      case _ => ""
  }

  /** `read_dbt_profiles` with the given default role. */
  function ReadProfile(file: ProfilesFile, roleDefault: string): (creds: Option<Credentials>)
    ensures creds.None? <==> DevOutput(file).None?
    ensures creds.Some? ==>
      var dev := DevOutput(file).value;
      creds.value == Credentials(
        Field(dev, "account", ""), Field(dev, "user", ""), Field(dev, "password", ""),
        Field(dev, "database", DefaultDatabase), Field(dev, "warehouse", DefaultWarehouse),
        Field(dev, "role", roleDefault))
  {
    match DevOutput(file)
    case None => None
    case Some(dev) =>
      Some(Credentials(
        Field(dev, "account", ""), Field(dev, "user", ""), Field(dev, "password", ""),
        Field(dev, "database", DefaultDatabase), Field(dev, "warehouse", DefaultWarehouse),
        Field(dev, "role", roleDefault)))
  }

  /** A profile whose outputs have no `dev` entry reads as all defaults. */
  lemma MissingDevIsAllDefaults(file: ProfilesFile, outputs: map<string, Node>, roleDefault: string)
    requires file.Parsed? && file.root.Mapping? && ProfileName in file.root.entries
    requires file.root.entries[ProfileName].Mapping?
    requires "outputs" in file.root.entries[ProfileName].entries
    requires file.root.entries[ProfileName].entries["outputs"] == Mapping(outputs)
    requires "dev" !in outputs
    ensures ReadProfile(file, roleDefault) ==
      Some(Credentials("", "", "", DefaultDatabase, DefaultWarehouse, roleDefault))
  {
  }

  /** The default role is the only thing the two copies of the reader can
      disagree on: they find credentials for the same files, and those
      credentials differ at most in the role, and only when the role is missing. */
  lemma OnlyRoleDefaultDiffers(file: ProfilesFile, roleDefault1: string, roleDefault2: string)
    ensures ReadProfile(file, roleDefault1).Some? <==> ReadProfile(file, roleDefault2).Some?
    ensures ReadProfile(file, roleDefault1).Some? ==>
      var c1, c2 := ReadProfile(file, roleDefault1).value, ReadProfile(file, roleDefault2).value;
      c1.(role := c2.role) == c2 &&
      (c1.role != c2.role ==> "role" !in DevOutput(file).value && c1.role == roleDefault1 && c2.role == roleDefault2)
  {
  }
}
