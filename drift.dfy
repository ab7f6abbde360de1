/** Facts that relate the three files to each other as they are written:
    the sensors look up flat metric keys in data that the coordinator nests
    under "lookup" and "stats", and the two network paths authenticate
    differently. */
module Drift {
  import opened Wrappers
  import Json
  import Text
  import Sensor
  import Coordinator
  import ConfigFlow

  /** After any successful poll, every catalogue sensor reports Unknown: no
      metric key is "lookup" or "stats", the only keys of the polled data. */
  lemma SensorsUnknownAfterPoll(fetch: Coordinator.Fetch, i: nat, parse: string -> Option<real>)
    requires Coordinator.UpdateData(fetch).Success?
    requires i < |Sensor.Sensors|
    ensures Sensor.NativeValueOf(Sensor.Sensors[i].key, Coordinator.UpdateData(fetch).value, parse)
      == Sensor.Unknown
  {
    Sensor.KeysValue();
    assert Sensor.Sensors[i].key == Sensor.Keys()[i];
  }

  /** The polling requests always carry a Bearer authorization and never
      the key header, while validation sends the key header or nothing; so
      for the same key the two paths never send the same headers. */
  lemma HeaderSchemesDiffer(c: Coordinator.DonutsCoordinator)
    ensures "X-API-Key" !in c.Headers() && "Authorization" in c.Headers()
    ensures "Authorization" !in ConfigFlow.KeyHeaders(c.apiKey)
    ensures ConfigFlow.KeyHeaders(c.apiKey) != c.Headers()
  {
  }

  /** For a coordinator holding the key that was entered in the flow:
      validation leaves the key out exactly when it is blank or, stripped,
      "none", and the coordinator sends it as a Bearer token all the same. */
  lemma LeftOutKeyStillSentAsBearer(c: Coordinator.DonutsCoordinator, data: map<string, string>)
    requires "api_key" in data && data["api_key"] == c.apiKey
    ensures ConfigFlow.KeyHeaders(ConfigFlow.ApiKey(data)) == map[] <==>
      Text.AllSpace(c.apiKey) || Text.Lower(Text.Strip(c.apiKey)) == "none"
    ensures c.Headers()["Authorization"] == "Bearer " + c.apiKey
  {
    ConfigFlow.KeyHeaderPresence(data);
    Text.LowerIsNone(ConfigFlow.ApiKey(data));
  }
}
