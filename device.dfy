/** The device label shown on the device page: a classification of the
    browser's user-agent string (app.js, getDeviceName). The user agent is
    read from the browser there; here it is a parameter. */
module Device {
  import opened Text

  const Windows := "Windows Device"
  const Mac := "Mac Device"
  const Android := "Android Device"
  const IOS := "iOS Device"
  const Unknown := "Unknown Device"

  /** Tests the markers "Windows", "Mac", "Android", "iOS" in that order;
      the first one present in the user agent decides the label. */
  function DeviceName(userAgent: string): (name: string)
    ensures name in {Windows, Mac, Android, IOS, Unknown}
    ensures name == Windows <==> Contains(userAgent, "Windows")
    ensures name == Mac <==>
      !Contains(userAgent, "Windows") && Contains(userAgent, "Mac")
    ensures name == Android <==>
      !Contains(userAgent, "Windows") && !Contains(userAgent, "Mac") && Contains(userAgent, "Android")
    ensures name == IOS <==>
      !Contains(userAgent, "Windows") && !Contains(userAgent, "Mac") && !Contains(userAgent, "Android")
      && Contains(userAgent, "iOS")
    ensures name == Unknown <==>
      !Contains(userAgent, "Windows") && !Contains(userAgent, "Mac") && !Contains(userAgent, "Android")
      && !Contains(userAgent, "iOS")
  {
    if Contains(userAgent, "Windows") then Windows
    else if Contains(userAgent, "Mac") then Mac
    else if Contains(userAgent, "Android") then Android
    else if Contains(userAgent, "iOS") then IOS
    else Unknown
  }

  /** Any user agent that mentions "Windows" is labelled a Windows device,
      whatever else it mentions: the earlier marker always wins. */
  lemma WindowsShadowsLaterMarkers(prefix: string, rest: string)
    ensures DeviceName(prefix + "Windows" + rest) == Windows
  {
    var ua := prefix + "Windows" + rest;
    assert OccursAt(ua, "Windows", |prefix|);
  }

  /** A marker whose first character never appears in the user agent is
      not found in it. */
  lemma AbsentWithoutFirstChar(ua: string, marker: string)
    requires marker != []
    requires forall j :: 0 <= j < |ua| ==> ua[j] != marker[0]
    ensures !Contains(ua, marker)
  {
    forall i: nat | i <= |ua|
      ensures !OccursAt(ua, marker, i)
    {
      if i + |marker| <= |ua| {
        assert ua[i..i + |marker|][0] == ua[i] != marker[0];
      }
    }
  }

  /** An iPhone user agent reads "like Mac OS X", so it is labelled a Mac
      device before the "iOS" marker is ever consulted. */
  lemma IPhoneIsLabelledMac()
    ensures DeviceName("iPhone; CPU iPhone OS 17_0 like Mac OS X") == Mac
  {
    var ua := "iPhone; CPU iPhone OS 17_0 like Mac OS X";
    assert OccursAt(ua, "Mac", 32);
    AbsentWithoutFirstChar(ua, "Windows");
  }
}
