/** Deployment profiles: the execution mode and observability level of an
    environment name. */
module Profiles {

  /** `profile_config` */
  function ProfileConfig(env: string): (c: map<string, string>)
    ensures c.Keys == {"mode", "observability"}
    ensures c["mode"] == "ibkr" <==> env == "prod"
    ensures c["mode"] == "sim" <==> env != "prod"
    ensures c["observability"] == (if env == "prod" then "full" else if env == "paper" then "standard" else "dev")
  {
    if env == "prod" then map["mode" := "ibkr", "observability" := "full"]
    else if env == "paper" then map["mode" := "sim", "observability" := "standard"]
    else map["mode" := "sim", "observability" := "dev"]
  }
}
