/** The configuration tables: API hosts, the bearer tokens per role and the
    named load profiles. */
module Env {

  /** A load profile: the number of virtual users and how long they run. */
  datatype Profile = Profile(vus: nat, duration: string)

  const Hosts: map<string, string> :=
    map["PROD" := "https://maf.sdet.pl/api", "DEV" := "http://localhost:5000/api"]

  /** The host every request goes to. */
  const CurrentHost: string := Hosts["PROD"]

  const Tokens: map<string, string> :=
    map["USER" := "your-user-token-here", "ADMIN" := "your-admin-token-here"]

  const LoadProfiles: map<string, Profile> :=
    map["LIGHT" := Profile(5, "30s"), "MEDIUM" := Profile(15, "2m"), "HEAVY" := Profile(50, "5m")]

  const DefaultProfile: Profile := LoadProfiles["LIGHT"]

  /** What the tables hold: requests go to the production host, two roles
      have tokens, three profiles exist, each with at least one virtual user,
      and the default is the light one. */
  lemma Tables()
    ensures Hosts.Keys == {"PROD", "DEV"} && CurrentHost == "https://maf.sdet.pl/api"
    ensures Tokens.Keys == {"USER", "ADMIN"}
    ensures LoadProfiles.Keys == {"LIGHT", "MEDIUM", "HEAVY"}
    ensures LoadProfiles["LIGHT"] == Profile(5, "30s")
    ensures LoadProfiles["MEDIUM"] == Profile(15, "2m")
    ensures LoadProfiles["HEAVY"] == Profile(50, "5m")
    ensures forall name :: name in LoadProfiles ==> LoadProfiles[name].vus >= 1
    ensures DefaultProfile == LoadProfiles["LIGHT"]
  {
  }
}
