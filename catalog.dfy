/** Content-side rules of backend/main.py: which uploads are accepted, how
    they are classified, and the expiry sweep run by the daily cleanup job. */
module Catalog {
  import opened Wrappers
  import opened Models

  /** The MIME types `create_content` accepts (narrower than the lists in the settings). */
  const AllowedTypes: set<string> :=
    {"audio/mpeg", "audio/wav", "video/mp4", "video/quicktime", "video/x-msvideo"}

  predicate StartsWith(s: string, prefix: string) {
    |prefix| <= |s| && s[..|prefix|] == prefix
  }

  /** A MIME type starting with `audio` is an audio item; every other type is video. */
  function Classify(contentType: string): (t: FileType)
    ensures t == Audio <==> StartsWith(contentType, "audio")
  {
    if StartsWith(contentType, "audio") then Audio else Video
  }

  /** Every accepted type is classified by its own top-level kind: the two
      audio types as audio, the three video types as video. */
  lemma ClassifyAllowed(contentType: string)
    requires contentType in AllowedTypes
    ensures Classify(contentType) == Audio <==> contentType in {"audio/mpeg", "audio/wav"}
    ensures Classify(contentType) == Video <==> StartsWith(contentType, "video")
  {
    assert "audio/mpeg"[..5] == "audio";
    assert "audio/wav"[..5] == "audio";
    assert "video/mp4"[..5] == "video";
    assert "video/quicktime"[..5] == "video";
    assert "video/x-msvideo"[..5] == "video";
  }

  /** The cleanup query's filter: `expires_at < now and is_active`. */
  predicate IsExpired(c: Content, now: Time) {
    c.isActive && c.expiresAt < now
  }

  /** What cleanup does to one row. */
  function SweepOne(c: Content, now: Time): (swept: Content) {
    if IsExpired(c, now) then c.(isActive := false) else c
  }

  /** The content table after one cleanup run at time `now`. */
  function SweepExpired(cs: seq<Content>, now: Time): (r: seq<Content>)
    ensures |r| == |cs|
    decreases |cs|
  {
    if cs == [] then [] else SweepExpired(cs[..|cs| - 1], now) + [SweepOne(cs[|cs| - 1], now)]
  }

  /** Row by row: an expired active row becomes inactive with every other
      column kept; every other row is kept as it is. */
  lemma {:induction false} SweepExpiredAt(cs: seq<Content>, now: Time, k: nat)
    requires k < |cs|
    ensures IsExpired(cs[k], now) ==> SweepExpired(cs, now)[k] == cs[k].(isActive := false)
    ensures !IsExpired(cs[k], now) ==> SweepExpired(cs, now)[k] == cs[k]
  {
    if k < |cs| - 1 {
      SweepExpiredAt(cs[..|cs| - 1], now, k);
    }
  }

  /** After a sweep nothing is left that the same sweep would deactivate. */
  lemma {:induction false} SweepExpiredLeavesNoneExpired(cs: seq<Content>, now: Time)
    ensures forall k :: 0 <= k < |cs| ==> !IsExpired(SweepExpired(cs, now)[k], now)
  {
    forall k | 0 <= k < |cs| ensures !IsExpired(SweepExpired(cs, now)[k], now) {
      SweepExpiredAt(cs, now, k);
    }
  }

  /** Running the cleanup twice at the same time equals running it once. */
  lemma {:induction false} SweepExpiredIdempotent(cs: seq<Content>, now: Time)
    ensures SweepExpired(SweepExpired(cs, now), now) == SweepExpired(cs, now)
  {
    var once := SweepExpired(cs, now);
    forall k | 0 <= k < |cs| ensures SweepExpired(once, now)[k] == once[k] {
      SweepExpiredAt(cs, now, k);
      SweepExpiredAt(once, now, k);
    }
  }

  /** A newly created row survives every sweep up to the end of its retention
      period and is deactivated by every sweep after it. */
  lemma NewContentExpiresAfterRetention(id: string, title: string, description: string, fileUrl: string,
                                        fileType: FileType, fileSize: Option<int>, creatorId: int,
                                        price: Money, created: Time, now: Time)
    ensures var c := NewContent(id, title, description, fileUrl, fileType, fileSize, creatorId, price, created);
            (SweepOne(c, now) == c <==> now <= created + 14 * 86400) &&
            (!SweepOne(c, now).isActive <==> now > created + 14 * 86400)
  {
  }
}
