/** Image and directory resolution from the configuration file and the process environment. */
module Config {
  import opened Wrappers
  import Strings

  type Vars = map<string, string>

  /** An unset variable reads as the empty string. */
  function Getenv(vars: Vars, key: string): string {
    if key in vars then vars[key] else ""
  }

  datatype Config = Config(bin: string, images: map<string, string>)

  const DEFAULT_FLYWAY_IMAGE := "docker.io/flyway/flyway:11-alpine"
  const DEFAULT_PODMAN_BIN := "/opt/podman/bin/podman"

  function DefaultConfig(): Config {
    Config(DEFAULT_PODMAN_BIN,
           map["mysql" := "mysql:8.0",
               "kafka" := "confluentinc/confluent-local:7.6.0",
               "redis" := "redis:7-alpine",
               "wiremock" := "docker.io/wiremock/wiremock:3.5.2",
               "flyway" := DEFAULT_FLYWAY_IMAGE])
  }

  function ServiceNameToEnvKey(name: string): string {
    Strings.ToUpper(Strings.ReplaceAll(name, '-', '_'))
  }

  function GetLocalImage(vars: Vars, service: string, default: string): string {
    var value := Getenv(vars, ServiceNameToEnvKey(service) + "_IMAGE");
    if value != "" then value else if default != "" then default else service + ":latest"
  }

  function GetLocalRepoDir(vars: Vars, service: string, default: string): string {
    var value := Getenv(vars, ServiceNameToEnvKey(service) + "_DIR");
    if value != "" then value else if default != "" then default else "../" + service
  }

  /** The receiver may be absent, as the builder's own configuration is when none was given to it. */
  function GetImage(c: Option<Config>, vars: Vars, key: string, default: string): string {
    if c.Some? && key in c.value.images && c.value.images[key] != "" then c.value.images[key]
    else
      var value := Getenv(vars, ServiceNameToEnvKey(key) + "_IMAGE");
      if value != "" then value else default
  }

  // ----- the variables a service is named in

  /** The name of a service in capitals, with underscores for hyphens, and a suffix. */
  predicate NamedAfter(variable: string, service: string, suffix: string) {
    && |variable| == |service| + |suffix|
    && variable[|service|..] == suffix
    && forall i :: 0 <= i < |service| ==> Capital(variable[i], service[i])
  }

  predicate Capital(big: char, c: char) {
    if c == '-' then big == '_'
    else if 'a' <= c <= 'z' then 'A' <= big <= 'Z' && big as int - 'A' as int == c as int - 'a' as int
    else big == c
  }

  lemma EnvKeyIs(variable: string, service: string, suffix: string)
    ensures NamedAfter(variable, service, suffix) <==> variable == ServiceNameToEnvKey(service) + suffix
  {
    var key := ServiceNameToEnvKey(service);
    forall i | 0 <= i < |service|
      ensures Capital(key[i], service[i])
      ensures forall big :: Capital(big, service[i]) <==> big == key[i]
    {
    }
    if NamedAfter(variable, service, suffix) {
      assert variable[..|service|] == key;
      assert variable == variable[..|service|] + variable[|service|..];
    }
  }

  lemma SortMistakeVariables()
    ensures NamedAfter("SORT_MISTAKE_IMAGE", "sort-mistake", "_IMAGE")
    ensures NamedAfter("SORT_MISTAKE_DIR", "sort-mistake", "_DIR")
  {
  }

  /** The image of an application service: the one its variable names, or else its default, or else its latest. */
  lemma LocalImageIs(vars: Vars, service: string, default: string, variable: string)
    requires NamedAfter(variable, service, "_IMAGE")
    ensures var image := GetLocalImage(vars, service, default);
            && (variable in vars && vars[variable] != "" ==> image == vars[variable])
            && ((variable in vars ==> vars[variable] == "") && default != "" ==> image == default)
            && ((variable in vars ==> vars[variable] == "") && default == "" ==> image == service + ":latest")
  {
    EnvKeyIs(variable, service, "_IMAGE");
    hide ServiceNameToEnvKey;
  }

  /** The checkout of a service: the directory its variable names, or else the default one, or else its sibling. */
  lemma LocalRepoDirIs(vars: Vars, service: string, default: string, variable: string)
    requires NamedAfter(variable, service, "_DIR")
    ensures var dir := GetLocalRepoDir(vars, service, default);
            && (variable in vars && vars[variable] != "" ==> dir == vars[variable])
            && ((variable in vars ==> vars[variable] == "") && default != "" ==> dir == default)
            && ((variable in vars ==> vars[variable] == "") && default == "" ==> dir == "../" + service)
  {
    EnvKeyIs(variable, service, "_DIR");
    hide ServiceNameToEnvKey;
  }

  /** The image of a backing service: the one the configuration names, or else the one its variable names, or else
      the default. */
  predicate BackingImage(image: string, c: Option<Config>, vars: Vars, key: string, variable: string, default: string) {
    var configured := c.Some? && key in c.value.images && c.value.images[key] != "";
    var named := variable in vars && vars[variable] != "";
    && (configured ==> image == c.value.images[key])
    && (!configured && named ==> image == vars[variable])
    && (!configured && !named ==> image == default)
  }

  lemma ImageIs(c: Option<Config>, vars: Vars, key: string, default: string, variable: string)
    requires NamedAfter(variable, key, "_IMAGE")
    ensures BackingImage(GetImage(c, vars, key, default), c, vars, key, variable, default)
  {
    EnvKeyIs(variable, key, "_IMAGE");
    hide ServiceNameToEnvKey;
  }

  lemma BackingVariables()
    ensures NamedAfter("MYSQL_IMAGE", "mysql", "_IMAGE") && NamedAfter("REDIS_IMAGE", "redis", "_IMAGE")
    ensures NamedAfter("KAFKA_IMAGE", "kafka", "_IMAGE") && NamedAfter("WIREMOCK_IMAGE", "wiremock", "_IMAGE")
    ensures NamedAfter("FLYWAY_IMAGE", "flyway", "_IMAGE")
  {
    hide NamedAfter;
    MySQLVariable();
    RedisVariable();
    KafkaVariable();
    WireMockVariable();
    FlywayVariable();
  }

  lemma MySQLVariable()
    ensures NamedAfter("MYSQL_IMAGE", "mysql", "_IMAGE")
  {
  }

  lemma RedisVariable()
    ensures NamedAfter("REDIS_IMAGE", "redis", "_IMAGE")
  {
  }

  lemma KafkaVariable()
    ensures NamedAfter("KAFKA_IMAGE", "kafka", "_IMAGE")
  {
  }

  lemma WireMockVariable()
    ensures NamedAfter("WIREMOCK_IMAGE", "wiremock", "_IMAGE")
  {
  }

  lemma FlywayVariable()
    ensures NamedAfter("FLYWAY_IMAGE", "flyway", "_IMAGE")
  {
  }

  /** The built-in configuration names the images that are used when there is no configuration at all. */
  lemma DefaultsAgree(vars: Vars)
    ensures var c := Some(DefaultConfig());
            && c.value.bin == "/opt/podman/bin/podman"
            && GetImage(c, vars, "mysql", "") == "mysql:8.0"
            && GetImage(c, vars, "kafka", "") == "confluentinc/confluent-local:7.6.0"
            && GetImage(c, vars, "redis", "") == "redis:7-alpine"
            && GetImage(c, vars, "wiremock", "") == "docker.io/wiremock/wiremock:3.5.2"
            && GetImage(c, vars, "flyway", "") == "docker.io/flyway/flyway:11-alpine"
  {
  }
}
