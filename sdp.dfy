/** The parts of an SDP message (GstSDPMessage) and of a WebRTC session
    description that the webrtcbin test harness reads or rebuilds. */
module Sdp {
  import opened Wrappers

  /** `a=key[:value]`; a flag attribute such as `bundle-only` may have no value. */
  datatype Attribute = Attribute(key: string, value: Option<string>)

  /** One `m=` section: its media type, port, format list and attributes.
      The section's other lines are copied wholesale and are not represented. */
  datatype Media = Media(media: string, port: nat, formats: seq<string>, attributes: seq<Attribute>)

  datatype Origin = Origin(username: string, sessId: string, sessVersion: string,
                           nettype: string, addrtype: string, addr: string)

  datatype Connection = Connection(nettype: string, addrtype: string, address: string,
                                   ttl: nat, addrNumber: nat)

  /** A message. `otherLines` stands for the session-level e=, p=, b=, t=, z=
      and k= lines, which the harness never copies. */
  datatype SdpMessage = SdpMessage(
    version: string,
    origin: Origin,
    sessionName: string,
    information: Option<string>,
    uri: Option<string>,
    connection: Connection,
    otherLines: seq<string>,
    attributes: seq<Attribute>,
    medias: seq<Media>)

  datatype SdpType = Offer | PrAnswer | Answer | Rollback

  datatype SessionDescription = SessionDescription(sdpType: SdpType, sdp: SdpMessage)

  /** `gst_sdp_media_get_attribute_val`: the value of the first attribute with
      this key; absent (NULL) when there is no such attribute or when that first
      attribute has no value. */
  function AttributeVal(attrs: seq<Attribute>, key: string): Option<string>
  {
    if |attrs| == 0 then None
    else if attrs[0].key == key then attrs[0].value
    else AttributeVal(attrs[1..], key)
  }

  /** `AttributeVal` is absent when no attribute has the key, and is the
      value of the first attribute with the key otherwise. */
  lemma {:induction false} AttributeValFirst(attrs: seq<Attribute>, key: string)
    ensures (forall j :: 0 <= j < |attrs| ==> attrs[j].key != key) ==> AttributeVal(attrs, key) == None
    ensures forall j :: 0 <= j < |attrs| && attrs[j].key == key ==>
              ((forall k :: 0 <= k < j ==> attrs[k].key != key) ==> AttributeVal(attrs, key) == attrs[j].value)
  {
    if |attrs| > 0 && attrs[0].key != key {
      AttributeValFirst(attrs[1..], key);
      assert forall j :: 1 <= j < |attrs| ==> attrs[j] == attrs[1..][j - 1];
    }
  }

  /** Some attribute of the list has this key. */
  predicate HasAttributeKey(attrs: seq<Attribute>, key: string)
  {
    exists j :: 0 <= j < |attrs| && attrs[j].key == key
  }

  /** The message `offer_remove_last_media` builds from `m`: the version,
      origin, session name, information, URI and connection, every session
      attribute in order, and every media section but the last. */
  function WithoutLastMedia(m: SdpMessage): SdpMessage
    requires |m.medias| > 0
  {
    m.(otherLines := [], medias := m.medias[..|m.medias| - 1])
  }

  /** Putting the dropped media section back restores the message, except for
      the session lines that are never copied. */
  lemma WithoutLastMediaInverse(m: SdpMessage)
    requires |m.medias| > 0
    ensures var r := WithoutLastMedia(m);
      && |r.medias| == |m.medias| - 1
      && r.(medias := r.medias + [m.medias[|m.medias| - 1]]) == m.(otherLines := [])
  {
    var r := WithoutLastMedia(m);
    assert r.medias + [m.medias[|m.medias| - 1]] == m.medias;
  }

  /** `offer_remove_last_media`'s message rebuild: a new message gets the
      header fields, then each session attribute, then every media section but
      the last. It fails (the test aborts) when the offer has no media. */
  method RemoveLastMedia(prev: SdpMessage) returns (ok: bool, r: SdpMessage)
    ensures ok <==> |prev.medias| > 0
    ensures ok ==> r == WithoutLastMedia(prev)
  {
    r := SdpMessage(prev.version, prev.origin, prev.sessionName, prev.information, prev.uri,
                    prev.connection, [], [], []);
    var i := 0;
    while i < |prev.attributes|
      invariant 0 <= i <= |prev.attributes|
      invariant r == WithoutLastMediaHeader(prev).(attributes := prev.attributes[..i])
    {
      r := r.(attributes := r.attributes + [prev.attributes[i]]);
      i := i + 1;
    }
    var n := |prev.medias|;
    if n == 0 {
      return false, r;
    }
    i := 0;
    while i < n - 1
      invariant 0 <= i <= n - 1
      invariant r == WithoutLastMediaHeader(prev).(attributes := prev.attributes, medias := prev.medias[..i])
    {
      r := r.(medias := r.medias + [prev.medias[i]]);
      i := i + 1;
    }
    ok := true;
  }

  /** The fields of `m` that are set before any attribute or media is added. */
  function WithoutLastMediaHeader(m: SdpMessage): SdpMessage
  {
    m.(otherLines := [], attributes := [], medias := [])
  }
}
