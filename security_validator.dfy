/** `SecurityValidator`: three native probes combined into the device
    verdict, and the validation that turns a failing verdict into an error
    message listing the reasons in a fixed order. Each native module is an
    input: absent, answering, or throwing. */
module SecurityValidator {
  import opened Wrappers
  import opened Text

  const RootedReason := "Device is rooted/jailbroken"
  const ProxyReason := "Proxy detected"
  const TamperReason := "Certificate tampering detected"
  const FailurePrefix := "Security check failed: "
  const ViolationMessage := "Security violation detected. This device is not secure for sensitive operations."

  /** What one native probe does when called. */
  datatype NativeCheck = Absent | Answers(answer: bool) | Throws

  /** The platform name and the three native modules. */
  datatype Natives = Natives(os: string, rootDetection: NativeCheck, proxyDetection: NativeCheck, tlsSecurity: NativeCheck)

  /** An absent or throwing module counts as a clean answer. */
  function Probe(c: NativeCheck): (b: bool)
    ensures b <==> c == Answers(true)
  {
    c.Answers? && c.answer
  }

  /** `isRooted`: asked only on Android. */
  function IsRooted(n: Natives): (b: bool)
    ensures b <==> n.os == "android" && n.rootDetection == Answers(true)
  {
    n.os == "android" && Probe(n.rootDetection)
  }

  /** `hasProxyEnabled`: asked only on Android. */
  function HasProxyEnabled(n: Natives): (b: bool)
    ensures b <==> n.os == "android" && n.proxyDetection == Answers(true)
  {
    n.os == "android" && Probe(n.proxyDetection)
  }

  /** `isCertificateTampered`: asked on every platform. */
  function IsCertificateTampered(n: Natives): (b: bool)
    ensures b <==> n.tlsSecurity == Answers(true)
  {
    Probe(n.tlsSecurity)
  }

  datatype Report = Report(secure: bool, isRooted: bool, hasProxyEnabled: bool, isCertificateTampered: bool)

  /** `isDeviceSecure`: the three checks and their combined verdict. */
  function IsDeviceSecure(n: Natives): (r: Report)
    ensures r.isRooted == IsRooted(n) && r.hasProxyEnabled == HasProxyEnabled(n) && r.isCertificateTampered == IsCertificateTampered(n)
    ensures r.secure <==> !r.isRooted && !r.hasProxyEnabled && !r.isCertificateTampered
  {
    var rooted := IsRooted(n);
    var proxy := HasProxyEnabled(n);
    var tampered := IsCertificateTampered(n);
    Report(!rooted && !proxy && !tampered, rooted, proxy, tampered)
  }

  /** Off Android, only the certificate probe can make a device insecure;
      with no native module at all, every device is secure. */
  lemma VerdictByPlatform(n: Natives)
    ensures n.os != "android" ==> (IsDeviceSecure(n).secure <==> n.tlsSecurity != Answers(true))
    ensures n.rootDetection != Answers(true) && n.proxyDetection != Answers(true) && n.tlsSecurity != Answers(true)
            ==> IsDeviceSecure(n).secure
  {
  }

  /** Where each reason stands in the fixed order. */
  function Rank(reason: string): int {
    if reason == RootedReason then 0 else if reason == ProxyReason then 1 else 2
  }

  /** The reasons of a report: one per failed check, in the order rooted,
      proxy, certificate. */
  function Reasons(r: Report): (rs: seq<string>)
    ensures |rs| == 0 <==> !r.isRooted && !r.hasProxyEnabled && !r.isCertificateTampered
    ensures (RootedReason in rs <==> r.isRooted) && (ProxyReason in rs <==> r.hasProxyEnabled)
            && (TamperReason in rs <==> r.isCertificateTampered)
    ensures forall i, j :: 0 <= i < j < |rs| ==> Rank(rs[i]) < Rank(rs[j])
  {
    (if r.isRooted then [RootedReason] else [])
      + (if r.hasProxyEnabled then [ProxyReason] else [])
      + (if r.isCertificateTampered then [TamperReason] else [])
  }

  /** What `validateSecurityOrThrow` settles with for a report: `true`, or
      the error message naming the reasons. */
  function Validation(r: Report): (v: Result<bool, string>)
    ensures v.Ok? <==> r.secure
    ensures v.Ok? ==> v.value
    ensures v.Err? ==> IsPrefix(FailurePrefix, v.error) && v.error[|FailurePrefix|..] == Join(Reasons(r), ", ")
  {
    if r.secure then Ok(true)
    else
      var message := FailurePrefix + Join(Reasons(r), ", ");
      assert message[..|FailurePrefix|] == FailurePrefix;
      Err(message)
  }

  /** `validateSecurityOrThrow`: collect the reasons with conditional pushes
      and join them. */
  method ValidateSecurityOrThrow(n: Natives) returns (v: Result<bool, string>)
    ensures v == Validation(IsDeviceSecure(n))
  {
    var security := IsDeviceSecure(n);
    if !security.secure {
      var reasons: seq<string> := [];
      if security.isRooted {
        reasons := reasons + [RootedReason];
      }
      if security.hasProxyEnabled {
        reasons := reasons + [ProxyReason];
      }
      if security.isCertificateTampered {
        reasons := reasons + [TamperReason];
      }
      assert reasons == Reasons(security);
      return Err(FailurePrefix + Join(reasons, ", "));
    }
    return Ok(true);
  }

  /** A rooted device with a proxy and a sound certificate fails with both
      reasons, rooted first. */
  lemma RootedAndProxyMessage(n: Natives)
    requires n.os == "android" && n.rootDetection == Answers(true) && n.proxyDetection == Answers(true)
    requires n.tlsSecurity != Answers(true)
    ensures Validation(IsDeviceSecure(n)) == Err(FailurePrefix + RootedReason + ", " + ProxyReason)
  {
    var rs := Reasons(IsDeviceSecure(n));
    assert rs == [RootedReason, ProxyReason];
    assert Join(rs, ", ") == RootedReason + ", " + ProxyReason by {
      assert rs[1..] == [ProxyReason];
      assert Join(rs[1..], ", ") == ProxyReason;
    }
    assert FailurePrefix + (RootedReason + ", " + ProxyReason) == FailurePrefix + RootedReason + ", " + ProxyReason;
  }

  /** `blockInsecureDevice`: always throws. */
  function BlockInsecureDevice(): (r: Result<(), string>)
    ensures r.Err? && |r.error| > 0
  {
    Err(ViolationMessage)
  }
}
