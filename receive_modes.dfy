/**
 * `ReceiveMode` and the two translations between the configuration value and the
 * transport value (ConfigurationUtilities.cs). Both enums share one type in the
 * source, so a value outside the two named members can still reach the switch.
 */
module ReceiveModes {
  import opened Core
  import opened Errors

  /** The two named members, plus any other integer the enum can hold. */
  datatype ReceiveMode = PeekLock | ReceiveAndDelete | Undefined(value: int)

  predicate IsNamed(m: ReceiveMode)
  {
    m.PeekLock? || m.ReceiveAndDelete?
  }

  /** `TranslateReceiveModeConfigurationValueToAzureServiceBusValue`. */
  function ToAzureServiceBusValue(m: ReceiveMode): (r: Result<ReceiveMode, Error>)
    ensures r.Ok? <==> IsNamed(m)
    ensures r.Ok? ==> r.value == m
    ensures r.Err? ==> r.error == ArgumentOutOfRange("configurationReceiveMode")
  {
    match m
    case PeekLock => Ok(PeekLock)
    case ReceiveAndDelete => Ok(ReceiveAndDelete)
    case Undefined(_) => Err(ArgumentOutOfRange("configurationReceiveMode"))
  }

  /** `TranslateAzureServiceBusReceiveModeValueToConfigurationValue`. */
  function ToConfigurationValue(m: ReceiveMode): (r: Result<ReceiveMode, Error>)
    ensures r.Ok? <==> IsNamed(m)
    ensures r.Ok? ==> r.value == m
    ensures r.Err? ==> r.error == ArgumentOutOfRange("azureServiceBusReceiveMode")
  {
    match m
    case PeekLock => Ok(PeekLock)
    case ReceiveAndDelete => Ok(ReceiveAndDelete)
    case Undefined(_) => Err(ArgumentOutOfRange("azureServiceBusReceiveMode"))
  }

  /** Translating to the transport and back is the identity on the named modes. */
  lemma ConfigurationRoundTrip(m: ReceiveMode)
    requires IsNamed(m)
    ensures ToAzureServiceBusValue(m).Ok?
    ensures ToConfigurationValue(ToAzureServiceBusValue(m).value) == Ok(m)
  {
  }

  /** Translating from the transport and back is the identity on the named modes. */
  lemma TransportRoundTrip(m: ReceiveMode)
    requires IsNamed(m)
    ensures ToConfigurationValue(m).Ok?
    ensures ToAzureServiceBusValue(ToConfigurationValue(m).value) == Ok(m)
  {
  }

  /** The two translations accept and reject exactly the same values. */
  lemma TranslationsAgree(m: ReceiveMode)
    ensures ToAzureServiceBusValue(m).Ok? <==> ToConfigurationValue(m).Ok?
    ensures ToAzureServiceBusValue(m).Ok? ==> ToAzureServiceBusValue(m) == ToConfigurationValue(m)
  {
  }
}
