/**
 * Topic strings and the two regular expressions of the connection flow:
 * the discovery pattern, searched in every announcement topic, and the
 * broker-address validator of the connection prompt. Both are unanchored
 * Go `regexp` searches; each is modelled by a scanning function and a
 * reference reading of the pattern, and a lemma ties the two.
 */
module Topics {
  import opened Wrappers

  /** Wildcard subscribed to while looking for a station. */
  const DiscoveryWildcard: string := "homeassistant/sensor/+/status/attributes"
  /** Fixed text of the discovery pattern before the serial group. */
  const DevicePrefix: string := "homeassistant/sensor/weatherflow2mqtt_ST-"
  /** Fixed text of the discovery pattern after the serial group. */
  const StatusSuffix: string := "/status/attributes"
  /** Tail of the per-device telemetry topic. */
  const StateSuffix: string := "/observation/state"

  /** `\d` in Go's regexp syntax: an ASCII digit. */
  predicate IsDigit(c: char) {
    '0' <= c <= '9'
  }

  /** The character class `[a-z0-9-._-]`: lower-case letters, digits, '-', '.' and '_'. */
  predicate IsHostChar(c: char) {
    'a' <= c <= 'z' || '0' <= c <= '9' || c == '-' || c == '.' || c == '_'
  }

  predicate AllDigits(d: string) {
    forall m :: 0 <= m < |d| ==> IsDigit(d[m])
  }

  /** `p` occurs in `s` starting at index `i`. */
  predicate OccursAt(p: string, s: string, i: nat) {
    i + |p| <= |s| && s[i..i + |p|] == p
  }

  /** An occurrence of `a + b` is an occurrence of `a` followed by one of `b`. */
  lemma OccursAtConcat(a: string, b: string, s: string, i: nat)
    ensures OccursAt(a + b, s, i) <==> OccursAt(a, s, i) && OccursAt(b, s, i + |a|)
  {
    var t := a + b;
    if OccursAt(t, s, i) {
      forall m | 0 <= m < |a| ensures s[i..i + |a|][m] == a[m] {
        assert s[i..i + |t|][m] == t[m];
      }
      forall m | 0 <= m < |b| ensures s[i + |a|..i + |t|][m] == b[m] {
        assert s[i..i + |t|][|a| + m] == t[|a| + m];
      }
    }
    if OccursAt(a, s, i) && OccursAt(b, s, i + |a|) {
      forall m | 0 <= m < |t| ensures s[i..i + |t|][m] == t[m] {
        if m < |a| {
          assert s[i..i + |a|][m] == a[m];
        } else {
          assert s[i + |a|..i + |t|][m - |a|] == b[m - |a|];
        }
      }
    }
  }

  /** End of the longest run of characters of the class starting at `j`. */
  function RunEnd(s: string, j: nat, inClass: char -> bool): (k: nat)
    requires j <= |s|
    ensures j <= k <= |s|
    ensures forall m :: j <= m < k ==> inClass(s[m])
    ensures k == |s| || !inClass(s[k])
    decreases |s| - j
  {
    if j < |s| && inClass(s[j]) then RunEnd(s, j + 1, inClass) else j
  }

  /** A run is determined by where it starts: any maximal run from `j` ends at RunEnd. */
  lemma RunEndUnique(s: string, j: nat, k: nat, inClass: char -> bool)
    requires j <= k <= |s|
    requires forall m :: j <= m < k ==> inClass(s[m])
    requires k == |s| || !inClass(s[k])
    ensures RunEnd(s, j, inClass) == k
  {
  }

  // ---------------------------------------------------------------------
  // Discovery pattern  homeassistant/sensor/weatherflow2mqtt_ST-(\d+)/status/attributes
  // ---------------------------------------------------------------------

  /** Reference reading of `pre(\d+)post`: a match at `i` whose group captures `d`. */
  ghost predicate CaptureMatchAt(s: string, i: nat, pre: string, d: string, post: string) {
    |d| > 0 && AllDigits(d) && OccursAt(pre + d + post, s, i)
  }

  /** Reference reading of the discovery pattern: a match at `i` whose group captures `d`. */
  ghost predicate DiscoveryMatchAt(s: string, i: nat, d: string) {
    CaptureMatchAt(s, i, DevicePrefix, d, StatusSuffix)
  }

  /** The match at `i` is the leftmost one in `s`. */
  ghost predicate LeftmostDiscoveryMatch(s: string, i: nat, d: string) {
    DiscoveryMatchAt(s, i, d) && forall j: nat, e: string :: j < i ==> !DiscoveryMatchAt(s, j, e)
  }

  /** An attempt of `pre(\d+)post` anchored at `i`; the digit run is greedy. */
  function CaptureAt(s: string, i: nat, pre: string, post: string): Option<string>
    requires i <= |s|
  {
    if OccursAt(pre, s, i) then
      var j := i + |pre|;
      var k := RunEnd(s, j, IsDigit);
      if j < k && OccursAt(post, s, k) then Some(s[j..k]) else None
    else None
  }

  lemma CaptureAtSound(s: string, i: nat, pre: string, d: string, post: string)
    requires i <= |s|
    requires CaptureAt(s, i, pre, post) == Some(d)
    ensures CaptureMatchAt(s, i, pre, d, post)
  {
    var j := i + |pre|;
    var k := RunEnd(s, j, IsDigit);
    assert OccursAt(d, s, j);
    OccursAtConcat(pre, d, s, i);
    OccursAtConcat(pre + d, post, s, i);
  }

  /** Because the text after the group does not start with a digit, greedy and
      non-greedy readings agree: every match is found by the anchored attempt. */
  lemma CaptureAtComplete(s: string, i: nat, pre: string, d: string, post: string)
    requires i <= |s|
    requires |post| > 0 && !IsDigit(post[0])
    requires CaptureMatchAt(s, i, pre, d, post)
    ensures CaptureAt(s, i, pre, post) == Some(d)
  {
    var j := i + |pre|;
    var n := j + |d|;
    OccursAtConcat(pre + d, post, s, i);
    OccursAtConcat(pre, d, s, i);
    assert s[n] == s[n..n + |post|][0] == post[0];
    forall m | j <= m < n ensures IsDigit(s[m]) {
      assert s[m] == s[j..n][m - j] == d[m - j];
    }
    RunEndUnique(s, j, n, IsDigit);
    assert s[j..n] == d;
  }

  /** The discovery attempt anchored at `i`. */
  function SerialAt(s: string, i: nat): (r: Option<string>)
    requires i <= |s|
    ensures r.Some? ==> OccursAt(DevicePrefix, s, i) && |r.value| > 0 && AllDigits(r.value)
  {
    CaptureAt(s, i, DevicePrefix, StatusSuffix)
  }

  /** An anchored attempt succeeds exactly on a match, and then captures its digits. */
  lemma SerialAtIsMatch(s: string, i: nat, d: string)
    requires i <= |s|
    ensures SerialAt(s, i) == Some(d) <==> DiscoveryMatchAt(s, i, d)
  {
    if SerialAt(s, i) == Some(d) {
      CaptureAtSound(s, i, DevicePrefix, d, StatusSuffix);
    }
    if DiscoveryMatchAt(s, i, d) {
      assert StatusSuffix[0] == '/';
      CaptureAtComplete(s, i, DevicePrefix, d, StatusSuffix);
    }
  }

  /** Leftmost-first search from index `i` onward. */
  function FindSerialFrom(s: string, i: nat): (r: Option<string>)
    requires i <= |s|
    ensures r.Some? ==> |r.value| > 0 && AllDigits(r.value)
    decreases |s| - i
  {
    match SerialAt(s, i)
    case Some(d) => Some(d)
    case None => if i == |s| then None else FindSerialFrom(s, i + 1)
  }

  lemma {:induction false} FindSerialFromIsLeftmost(s: string, i: nat)
    requires i <= |s|
    ensures FindSerialFrom(s, i).None? ==>
      forall k: nat, e: string :: i <= k ==> !DiscoveryMatchAt(s, k, e)
    ensures FindSerialFrom(s, i).Some? ==>
      exists k: nat :: i <= k <= |s| && DiscoveryMatchAt(s, k, FindSerialFrom(s, i).value) &&
        forall j: nat, e: string :: i <= j < k ==> !DiscoveryMatchAt(s, j, e)
    decreases |s| - i
  {
    forall e: string ensures SerialAt(s, i) == Some(e) <==> DiscoveryMatchAt(s, i, e) {
      SerialAtIsMatch(s, i, e);
    }
    match SerialAt(s, i)
    case Some(d) =>
      assert DiscoveryMatchAt(s, i, d);
    case None =>
      if i < |s| {
        FindSerialFromIsLeftmost(s, i + 1);
      } else {
        forall k: nat, e: string | i <= k ensures !DiscoveryMatchAt(s, k, e) {
          if k > i {
            assert |DevicePrefix + e + StatusSuffix| > 0;
          }
        }
      }
  }

  /**
   * FindStringSubmatch with the discovery pattern, keeping only group 1:
   * the digits of the leftmost match, or None when the topic has no match.
   */
  function MatchDiscoveryTopic(topic: string): (r: Option<string>)
    ensures r.Some? ==> |r.value| > 0 && AllDigits(r.value)
  {
    FindSerialFrom(topic, 0)
  }

  /** The search returns `d` exactly when the leftmost match of the pattern captures `d`. */
  lemma MatchDiscoveryTopicIsLeftmost(topic: string, d: string)
    ensures MatchDiscoveryTopic(topic) == Some(d) <==> exists i: nat :: LeftmostDiscoveryMatch(topic, i, d)
    ensures MatchDiscoveryTopic(topic).None? <==> forall i: nat, e: string :: !DiscoveryMatchAt(topic, i, e)
  {
    FindSerialFromIsLeftmost(topic, 0);
    var r := MatchDiscoveryTopic(topic);
    if r == Some(d) {
      var k: nat :| k <= |topic| && DiscoveryMatchAt(topic, k, d) &&
        forall j: nat, e: string :: j < k ==> !DiscoveryMatchAt(topic, j, e);
      assert LeftmostDiscoveryMatch(topic, k, d);
    }
    if i: nat :| LeftmostDiscoveryMatch(topic, i, d) {
      assert r.Some?;
      var k: nat :| k <= |topic| && DiscoveryMatchAt(topic, k, r.value) &&
        forall j: nat, e: string :: j < k ==> !DiscoveryMatchAt(topic, j, e);
      assert k == i;
      SerialAtIsMatch(topic, i, d);
      SerialAtIsMatch(topic, i, r.value);
    }
  }

  /** A station announcement yields its serial. */
  lemma DiscoveryExample()
    ensures MatchDiscoveryTopic("homeassistant/sensor/weatherflow2mqtt_ST-12345/status/attributes") == Some("12345")
  {
    var s := "homeassistant/sensor/weatherflow2mqtt_ST-12345/status/attributes";
    var d := "12345";
    assert DevicePrefix + d + StatusSuffix == s;
    assert LeftmostDiscoveryMatch(s, 0, d);
    MatchDiscoveryTopicIsLeftmost(s, d);
  }

  /** A topic in which the weatherflow2mqtt device prefix occurs nowhere yields no serial. */
  lemma DiscoveryIgnoresOtherDevices(topic: string)
    requires forall i: nat :: !OccursAt(DevicePrefix, topic, i)
    ensures MatchDiscoveryTopic(topic).None?
  {
    forall i: nat, e: string ensures !DiscoveryMatchAt(topic, i, e) {
      if DiscoveryMatchAt(topic, i, e) {
        OccursAtConcat(DevicePrefix + e, StatusSuffix, topic, i);
        OccursAtConcat(DevicePrefix, e, topic, i);
      }
    }
    MatchDiscoveryTopicIsLeftmost(topic, "");
  }

  /** For example, the status topic of another sensor, too short to hold a match. */
  lemma DiscoveryIgnoresOutdoorTemp()
    ensures MatchDiscoveryTopic("homeassistant/sensor/outdoor_temp/status/attributes").None?
  {
    var s := "homeassistant/sensor/outdoor_temp/status/attributes";
    forall i: nat, e: string ensures !DiscoveryMatchAt(s, i, e) {
      assert |DevicePrefix + e + StatusSuffix| > |s|;
    }
    MatchDiscoveryTopicIsLeftmost(s, "");
  }

  // ---------------------------------------------------------------------
  // Telemetry topic
  // ---------------------------------------------------------------------

  /** Per-device topic carrying the station's observation state. */
  function TelemetryTopic(serial: string): string {
    DevicePrefix + serial + StateSuffix
  }

  /** The serial can be read back from its telemetry topic, which is never the
      discovery wildcard. */
  lemma TelemetryTopicLayout(serial: string)
    ensures |TelemetryTopic(serial)| == |DevicePrefix| + |serial| + |StateSuffix|
    ensures OccursAt(DevicePrefix, TelemetryTopic(serial), 0)
    ensures TelemetryTopic(serial)[|DevicePrefix|..|DevicePrefix| + |serial|] == serial
    ensures OccursAt(StateSuffix, TelemetryTopic(serial), |DevicePrefix| + |serial|)
    ensures TelemetryTopic(serial) != DiscoveryWildcard
  {
    var r := TelemetryTopic(serial);
    assert r[21] == 'w' && DiscoveryWildcard[21] == '+';
    OccursAtConcat(DevicePrefix, serial, r, 0);
    OccursAtConcat(DevicePrefix + serial, StateSuffix, r, 0);
  }

  /** Distinct serials subscribe to distinct telemetry topics. */
  lemma TelemetryTopicInjective(a: string, b: string)
    requires TelemetryTopic(a) == TelemetryTopic(b)
    ensures a == b
  {
    TelemetryTopicLayout(a);
    TelemetryTopicLayout(b);
  }

  // ---------------------------------------------------------------------
  // Broker validator  (tcp|ws)://[a-z0-9-._-]+:\d+/
  // ---------------------------------------------------------------------

  const TcpScheme: string := "tcp://"
  const WsScheme: string := "ws://"

  /** Reference reading of the validator: a match at `i` with scheme ending at `j`,
      host `s[j..h]`, ':' at `h`, port `s[h+1..p]` and '/' at `p`. */
  ghost predicate BrokerShape(s: string, i: nat, j: nat, h: nat, p: nat) {
    i <= j < h && h + 1 < p < |s| &&
    (s[i..j] == TcpScheme || s[i..j] == WsScheme) &&
    (forall m :: j <= m < h ==> IsHostChar(s[m])) &&
    s[h] == ':' &&
    (forall m :: h < m < p ==> IsDigit(s[m])) &&
    s[p] == '/'
  }

  /** Where the alternation `(tcp|ws)://` ends when it matches at `i`. */
  function SchemeEnd(s: string, i: nat): Option<nat> {
    if OccursAt(TcpScheme, s, i) then Some(i + |TcpScheme|)
    else if OccursAt(WsScheme, s, i) then Some(i + |WsScheme|)
    else None
  }

  /** An attempt anchored at `i`. */
  predicate BrokerMatchAt(s: string, i: nat)
    requires i <= |s|
  {
    match SchemeEnd(s, i)
    case None => false
    case Some(j) =>
      var h := RunEnd(s, j, IsHostChar);
      j < h < |s| && s[h] == ':' &&
      var p := RunEnd(s, h + 1, IsDigit);
      h + 1 < p < |s| && s[p] == '/'
  }

  lemma SchemeEndOfShape(s: string, i: nat, j: nat)
    requires i <= j <= |s| && (s[i..j] == TcpScheme || s[i..j] == WsScheme)
    ensures SchemeEnd(s, i) == Some(j)
  {
    if s[i..j] == WsScheme {
      assert s[i] == s[i..j][0] == 'w';
    }
  }

  lemma BrokerMatchAtIsShape(s: string, i: nat)
    requires i <= |s|
    ensures BrokerMatchAt(s, i) <==> exists j, h, p :: BrokerShape(s, i, j, h, p)
  {
    if BrokerMatchAt(s, i) {
      var j := SchemeEnd(s, i).value;
      var h := RunEnd(s, j, IsHostChar);
      var p := RunEnd(s, h + 1, IsDigit);
      assert BrokerShape(s, i, j, h, p);
    }
    if j: nat, h: nat, p: nat :| BrokerShape(s, i, j, h, p) {
      SchemeEndOfShape(s, i, j);
      RunEndUnique(s, j, h, IsHostChar);
      RunEndUnique(s, h + 1, p, IsDigit);
    }
  }

  function BrokerMatchFrom(s: string, i: nat): bool
    requires i <= |s|
    decreases |s| - i
  {
    BrokerMatchAt(s, i) || (i < |s| && BrokerMatchFrom(s, i + 1))
  }

  lemma {:induction false} BrokerMatchFromIsShape(s: string, i: nat)
    requires i <= |s|
    ensures BrokerMatchFrom(s, i) <==> exists k, j, h, p :: i <= k && BrokerShape(s, k, j, h, p)
    decreases |s| - i
  {
    BrokerMatchAtIsShape(s, i);
    if i < |s| {
      BrokerMatchFromIsShape(s, i + 1);
      if k, j, h, p :| i <= k && BrokerShape(s, k, j, h, p) {
        if k > i {
          assert i + 1 <= k;
        } else {
          assert BrokerShape(s, i, j, h, p);
        }
      }
    }
  }

  /** The prompt's validator: some substring of the address matches the pattern. */
  predicate ValidBrokerAddress(address: string) {
    BrokerMatchFrom(address, 0)
  }

  /** Reference reading of the validator: the pattern matches somewhere in the address. */
  ghost predicate MatchesBrokerPattern(address: string) {
    exists i, j, h, p :: BrokerShape(address, i, j, h, p)
  }

  /** The scanning validator accepts exactly the addresses the pattern matches. */
  lemma ValidBrokerAddressIsShape(address: string)
    ensures ValidBrokerAddress(address) <==> MatchesBrokerPattern(address)
  {
    BrokerMatchFromIsShape(address, 0);
  }

  /** The prompt's placeholder passes the validator. */
  lemma BrokerPlaceholderValid(address: string)
    requires address == "tcp://broker.emqx.io:1883/"
    ensures ValidBrokerAddress(address)
  {
    assert address[..6] == "tcp://";
    assert forall m :: 6 <= m < 20 ==> IsHostChar(address[m]);
    assert address[20] == ':' && address[25] == '/';
    assert forall m :: 20 < m < 25 ==> IsDigit(address[m]);
    assert BrokerShape(address, 0, 6, 20, 25);
    ValidBrokerAddressIsShape(address);
  }

  /** An address in which neither `tcp://` nor `ws://` occurs fails the validator. */
  lemma BrokerWithoutSchemeInvalid(address: string)
    requires forall i: nat :: !OccursAt(TcpScheme, address, i) && !OccursAt(WsScheme, address, i)
    ensures !ValidBrokerAddress(address)
  {
    ValidBrokerAddressIsShape(address);
    if i: nat, j: nat, h: nat, p: nat :| BrokerShape(address, i, j, h, p) {
      SchemeEndOfShape(address, i, j);
    }
  }

  /** For example, a bare host and port without a scheme fails the validator. */
  lemma BrokerHostPortInvalid(address: string)
    requires address == "broker.emqx.io:1883"
    ensures !ValidBrokerAddress(address)
  {
    assert forall m :: 0 <= m < |address| ==> address[m] != '/';
    ValidBrokerAddressIsShape(address);
  }
}
