/**
 * Registering the warehouse as a datasource of the validation framework's
 * project context: read the credentials (default role SYSADMIN), refuse to go
 * on without account, user and password, delete an existing datasource of the
 * same name (ignoring a failed delete), add the new one and save the project
 * configuration.
 *
 * The framework calls are methods of `DataContext`; whether each of them
 * raises is an input. Installing the warehouse driver on demand and the
 * framework import check are not modelled.
 */
module SnowflakeConfig {
  import opened Common
  import opened Profiles

  /** `read_dbt_profiles` of this script: missing fields get the defaults, the role SYSADMIN. */
  function ReadDbtProfiles(file: ProfilesFile): (creds: Option<Credentials>)
    ensures creds.None? <==> DevOutput(file).None?
    ensures creds.Some? ==> creds.value.role == Field(DevOutput(file).value, "role", "SYSADMIN")
    ensures creds.Some? && "role" !in DevOutput(file).value ==> creds.value.role == "SYSADMIN"
  {
    ReadProfile(file, "SYSADMIN")
  }

  /** The credential gate: credentials were found and account, user and
      password are all non-empty. Python's `not creds or not all([...])`
      refuses exactly when one of the three is falsy. */
  predicate CredentialsUsable(creds: Option<Credentials>): (usable: bool)
    ensures usable <==>
      creds.Some? && Truthy(Some(creds.value.account)) && Truthy(Some(creds.value.user)) && Truthy(Some(creds.value.password))
  {
    creds.Some? && creds.value.account != "" && creds.value.user != "" && creds.value.password != ""
  }

  /** A field the gate accepts was given in the profile as non-empty text:
      the defaults for account, user and password never pass. */
  predicate GivenAsText(dev: map<string, Node>, key: string) {
    key in dev && dev[key].Text? && dev[key].text != ""
  }

  lemma UsableMeansGiven(file: ProfilesFile)
    requires CredentialsUsable(ReadDbtProfiles(file))
    ensures var dev := DevOutput(file).value;
      GivenAsText(dev, "account") && GivenAsText(dev, "user") && GivenAsText(dev, "password")
  {
    var dev := DevOutput(file).value;
    assert Field(dev, "account", "") != "";
    assert Field(dev, "user", "") != "";
    assert Field(dev, "password", "") != "";
  }

  const DatasourceName := "snowflake_datasource"

  datatype Datasource = SnowflakeDatasource(
    name: string, account: string, user: string, password: string,
    database: string, schema: string, warehouse: string, role: string)

  /** The datasource the script registers: the credentials' connection fields
      and the fixed schema "marts". */
  function NewDatasource(c: Credentials): (ds: Datasource)
    ensures ds.name == DatasourceName && ds.schema == "marts"
    ensures ds.account == c.account && ds.user == c.user && ds.password == c.password
    ensures ds.database == c.database && ds.warehouse == c.warehouse && ds.role == c.role
  {
    SnowflakeDatasource(DatasourceName, c.account, c.user, c.password, c.database, "marts", c.warehouse, c.role)
  }

  /** The project context: the datasources it holds in memory and the ones
      in its saved configuration. */
  class DataContext {
    var datasources: map<string, Datasource>
    var saved: map<string, Datasource>

    constructor (datasources: map<string, Datasource>, saved: map<string, Datasource>)
      ensures this.datasources == datasources && this.saved == saved
    {
      this.datasources := datasources;
      this.saved := saved;
    }

    /** Delete a datasource; when the call raises nothing changes. */
    method DeleteDatasource(name: string, succeeds: bool)
      modifies this
      ensures datasources == if succeeds then old(datasources) - {name} else old(datasources)
      ensures saved == old(saved)
    {
      if succeeds {
        datasources := datasources - {name};
      }
    }

    /** Add a datasource under its name; when the call raises nothing changes. */
    method AddDatasource(ds: Datasource, succeeds: bool)
      modifies this
      ensures datasources == if succeeds then old(datasources)[ds.name := ds] else old(datasources)
      ensures saved == old(saved)
    {
      if succeeds {
        datasources := datasources[ds.name := ds];
      }
    }

    /** Save the project configuration; when the call raises nothing changes. */
    method SaveProjectConfig(succeeds: bool)
      modifies this
      ensures saved == if succeeds then datasources else old(saved)
      ensures datasources == old(datasources)
    {
      if succeeds {
        saved := datasources;
      }
    }
  }

  /** Whether each framework call raises. */
  datatype FrameworkOutcomes = FrameworkOutcomes(deleteSucceeds: bool, addSucceeds: bool, saveSucceeds: bool)

  /** The datasources left after the replace-step's delete. */
  function AfterDelete(datasources: map<string, Datasource>, deleteSucceeds: bool): map<string, Datasource> {
    if DatasourceName in datasources && deleteSucceeds then datasources - {DatasourceName} else datasources
  }

  /** The script's `main`. */
  method ConfigureSnowflake(ctx: DataContext, file: ProfilesFile, outcomes: FrameworkOutcomes) returns (exitCode: int)
    modifies ctx
    ensures !CredentialsUsable(ReadDbtProfiles(file)) ==>
      exitCode == 1 && ctx.datasources == old(ctx.datasources) && ctx.saved == old(ctx.saved)
    ensures CredentialsUsable(ReadDbtProfiles(file)) && outcomes.addSucceeds ==>
      ctx.datasources == old(ctx.datasources)[DatasourceName := NewDatasource(ReadDbtProfiles(file).value)]
    ensures CredentialsUsable(ReadDbtProfiles(file)) && !outcomes.addSucceeds ==>
      ctx.datasources == AfterDelete(old(ctx.datasources), outcomes.deleteSucceeds) && ctx.saved == old(ctx.saved)
    ensures CredentialsUsable(ReadDbtProfiles(file)) && outcomes.addSucceeds ==>
      ctx.saved == (if outcomes.saveSucceeds then ctx.datasources else old(ctx.saved))
    ensures exitCode == 0 <==>
      CredentialsUsable(ReadDbtProfiles(file)) && outcomes.addSucceeds && outcomes.saveSucceeds
    ensures exitCode == 0 || exitCode == 1
  {
    var creds := ReadDbtProfiles(file);
    if !CredentialsUsable(creds) {
      return 1;
    }

    if DatasourceName in ctx.datasources {
      ctx.DeleteDatasource(DatasourceName, outcomes.deleteSucceeds);
    }

    var datasource := NewDatasource(creds.value);
    ctx.AddDatasource(datasource, outcomes.addSucceeds);
    if !outcomes.addSucceeds {
      return 1;
    }
    ctx.SaveProjectConfig(outcomes.saveSucceeds);
    if !outcomes.saveSucceeds {
      return 1;
    }
    exitCode := 0;
  }
}
