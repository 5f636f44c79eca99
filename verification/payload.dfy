/** The request body `ChallanSender.send_challan` builds: one notice record
    under the key `cctvNoticeData`, mixing fixed values, generated
    identifiers and the user's text copied verbatim. */
module Payload {
  import opened Options
  import opened Endpoints
  import opened Identifiers
  import opened Timestamps

  /** The JSON values the body is made of. */
  datatype Json =
    | JString(str: string)
    | JInt(num: int)
    | JFloat(flt: real)
    | JArray(items: seq<Json>)
    | JObject(members: seq<(string, Json)>)

  /** One element of `cctvNoticeData`, field for field (the source spells
      two keys "voilation"). */
  datatype Notice = Notice(
    offenceId: string, dpCd: string, latitude: real, transactionNo: string,
    userId: string, regnNo: string, voilationSource: string,
    voilationSourceCatg: string, stateCd: string, districtId: string,
    location: string, district: string, offCd: string, equipmentId: string,
    vendorName: string, vehicleSpeed: int, speedLimit: int, vehicleWeight: int,
    voilationTime: string, actionTime: string, longitude: real, image1: string)

  /** The keys of a notice object, in the order the body lists them. */
  const NoticeKeys: seq<string> := [
    "offenceId", "dpCd", "latitude", "transactionNo", "userId", "regnNo",
    "voilationSource", "voilationSourceCatg", "stateCd", "districtId",
    "location", "district", "offCd", "equipmentId", "vendorName",
    "vehicleSpeed", "speedLimit", "vehicleWeight", "voilationTime",
    "actionTime", "longitude", "image1"]

  const RootKey := "cctvNoticeData"

  function NoticeValues(n: Notice): (vs: seq<Json>)
    ensures |vs| == |NoticeKeys|
  {
    [JString(n.offenceId), JString(n.dpCd), JFloat(n.latitude), JString(n.transactionNo),
     JString(n.userId), JString(n.regnNo), JString(n.voilationSource),
     JString(n.voilationSourceCatg), JString(n.stateCd), JString(n.districtId),
     JString(n.location), JString(n.district), JString(n.offCd), JString(n.equipmentId),
     JString(n.vendorName), JInt(n.vehicleSpeed), JInt(n.speedLimit), JInt(n.vehicleWeight),
     JString(n.voilationTime), JString(n.actionTime), JFloat(n.longitude), JString(n.image1)]
  }

  function Zip(keys: seq<string>, values: seq<Json>): (ms: seq<(string, Json)>)
    requires |keys| == |values|
    ensures |ms| == |keys|
    ensures forall i :: 0 <= i < |ms| ==> ms[i] == (keys[i], values[i])
  {
    seq(|keys|, i requires 0 <= i < |keys| => (keys[i], values[i]))
  }

  function Keys(ms: seq<(string, Json)>): (ks: seq<string>)
    ensures |ks| == |ms| && forall i :: 0 <= i < |ms| ==> ks[i] == ms[i].0
  {
    seq(|ms|, i requires 0 <= i < |ms| => ms[i].0)
  }

  function Values(ms: seq<(string, Json)>): (vs: seq<Json>)
    ensures |vs| == |ms| && forall i :: 0 <= i < |ms| ==> vs[i] == ms[i].1
  {
    seq(|ms|, i requires 0 <= i < |ms| => ms[i].1)
  }

  /** The notice as a JSON object: the 22 keys in the order the body lists
      them, each carrying the field of that name. */
  function NoticeToJson(n: Notice): (j: Json)
    ensures j.JObject? && Keys(j.members) == NoticeKeys
    ensures Values(j.members) == NoticeValues(n)
  {
    var ms := Zip(NoticeKeys, NoticeValues(n));
    assert Keys(ms) == NoticeKeys;
    assert Values(ms) == NoticeValues(n);
    JObject(ms)
  }

  /** Reads a notice back from its JSON object, insisting on exactly the
      notice's keys in order and on a value of the right kind under each. */
  function NoticeFromJson(j: Json): Option<Notice> {
    if !j.JObject? || Keys(j.members) != NoticeKeys then None
    else
      var v := Values(j.members);
      if && v[0].JString? && v[1].JString? && v[2].JFloat? && v[3].JString?
         && v[4].JString? && v[5].JString? && v[6].JString? && v[7].JString?
         && v[8].JString? && v[9].JString? && v[10].JString? && v[11].JString?
         && v[12].JString? && v[13].JString? && v[14].JString? && v[15].JInt?
         && v[16].JInt? && v[17].JInt? && v[18].JString? && v[19].JString?
         && v[20].JFloat? && v[21].JString?
      then Some(Notice(
        v[0].str, v[1].str, v[2].flt, v[3].str, v[4].str, v[5].str, v[6].str,
        v[7].str, v[8].str, v[9].str, v[10].str, v[11].str, v[12].str, v[13].str,
        v[14].str, v[15].num, v[16].num, v[17].num, v[18].str, v[19].str,
        v[20].flt, v[21].str))
      else None
  }

  /** The whole body: `{"cctvNoticeData": [notice]}`. */
  function PayloadToJson(n: Notice): (j: Json)
    ensures j.JObject? && |j.members| == 1 && j.members[0].0 == RootKey
    ensures j.members[0].1.JArray? && |j.members[0].1.items| == 1
  {
    JObject([(RootKey, JArray([NoticeToJson(n)]))])
  }

  function PayloadFromJson(j: Json): Option<Notice> {
    if j.JObject? && |j.members| == 1 && j.members[0].0 == RootKey
       && j.members[0].1.JArray? && |j.members[0].1.items| == 1
    then NoticeFromJson(j.members[0].1.items[0])
    else None
  }

  lemma {:induction false} NoticeRoundTrip(n: Notice)
    ensures NoticeFromJson(NoticeToJson(n)) == Some(n)
  {
    var ms := Zip(NoticeKeys, NoticeValues(n));
    assert Keys(ms) == NoticeKeys;
    assert Values(ms) == NoticeValues(n);
  }

  lemma {:induction false} NoticeDecodeExact(j: Json)
    requires NoticeFromJson(j).Some?
    ensures NoticeToJson(NoticeFromJson(j).value) == j
  {
    var n := NoticeFromJson(j).value;
    var v := Values(j.members);
    assert NoticeValues(n) == v;
    assert Zip(Keys(j.members), v) == j.members;
  }

  /** Decoding the body gives back the notice it was built from. */
  lemma PayloadRoundTrip(n: Notice)
    ensures PayloadFromJson(PayloadToJson(n)) == Some(n)
  {
    NoticeRoundTrip(n);
  }

  /** The decoder accepts nothing but bodies the builder's encoding yields:
      any accepted body is the encoding of the notice decoded from it. */
  lemma PayloadDecodeExact(j: Json)
    requires PayloadFromJson(j).Some?
    ensures PayloadToJson(PayloadFromJson(j).value) == j
  {
    var item := j.members[0].1.items[0];
    NoticeDecodeExact(item);
    assert [item] == j.members[0].1.items;
    assert [(RootKey, JArray([item]))] == j.members;
  }

  /** The text of the five input fields at the moment of sending. */
  datatype FormFields = FormFields(
    userId: string, districtId: string, location: string, district: string, offCd: string)

  /** The values `send_challan` writes as literals. */
  predicate HasFixedValues(n: Notice) {
    && n.dpCd == "TP" && n.latitude == 1.0 && n.longitude == 1.0
    && n.voilationSource == "OSV" && n.voilationSourceCatg == "Over Speed Violation"
    && n.stateCd == "HP" && n.vendorName == "I2V"
    && n.vehicleSpeed == 50 && n.speedLimit == 40 && n.vehicleWeight == 0
  }

  /** The user's text appears unchanged: no trimming, parsing or check. */
  predicate CopiesForm(n: Notice, f: FormFields) {
    && n.userId == f.userId && n.districtId == f.districtId
    && n.location == f.location && n.district == f.district && n.offCd == f.offCd
  }

  /** The notice for one submission. `image` is the static base64 JPEG
      literal, the same for every submission. */
  function BuildNotice(f: FormFields, e: Endpoint, ids: Ids, clock: Clock, image: string): (n: Notice)
    ensures HasFixedValues(n)
    ensures CopiesForm(n, f)
    ensures n.offenceId == e.offenceId
    ensures n.transactionNo == ids.transactionNo && n.regnNo == ids.regnNo && n.equipmentId == ids.equipmentId
    ensures n.voilationTime == clock.violationTime && n.actionTime == clock.actionTime
    ensures n.image1 == image
  {
    Notice(
      e.offenceId, "TP", 1.0, ids.transactionNo, f.userId, ids.regnNo, "OSV",
      "Over Speed Violation", "HP", f.districtId, f.location, f.district, f.offCd,
      ids.equipmentId, "I2V", 50, 40, 0, clock.violationTime, clock.actionTime, 1.0, image)
  }

  /** A notice is fully determined by what varies between submissions:
      the form text, the endpoint's offence id, the identifiers, the clock
      and the image. Anything else in it is one of the fixed values. */
  lemma BuildNoticeComplete(n: Notice, f: FormFields, e: Endpoint, ids: Ids, clock: Clock, image: string)
    requires HasFixedValues(n) && CopiesForm(n, f) && n.offenceId == e.offenceId
    requires n.transactionNo == ids.transactionNo && n.regnNo == ids.regnNo && n.equipmentId == ids.equipmentId
    requires n.voilationTime == clock.violationTime && n.actionTime == clock.actionTime
    requires n.image1 == image
    ensures n == BuildNotice(f, e, ids, clock, image)
  {
  }

  /** What a receiver decoding the body finds: exactly one notice, carrying
      the selected endpoint's offence id, the fixed values, and the user's
      text unchanged. */
  lemma WireContents(f: FormFields, index: int, ids: Ids, clock: Clock, image: string)
    ensures var body := PayloadToJson(BuildNotice(f, SelectEndpoint(index), ids, clock, image));
      && body.members[0].1.items == [NoticeToJson(BuildNotice(f, SelectEndpoint(index), ids, clock, image))]
      && PayloadFromJson(body).Some?
      && HasFixedValues(PayloadFromJson(body).value)
      && CopiesForm(PayloadFromJson(body).value, f)
      && PayloadFromJson(body).value.offenceId == (if index == 0 then "4391" else "9759")
      && PayloadFromJson(body).value.transactionNo == ids.transactionNo
  {
    PayloadRoundTrip(BuildNotice(f, SelectEndpoint(index), ids, clock, image));
  }
}
