/** The summary cache: a map from a digest of (content, profile name) to a summary text. */
module Summaries {
  import opened Wrappers

  /** What the summaries file held when the cache was loaded. */
  datatype SummaryFile =
    | Missing                               // no file at the path
    | Corrupt                               // the JSON does not parse
    | Parsed(entries: map<string, string>)  // a flat digest-to-summary object

  /** The text the digest is taken of: the content, then the profile name when it is non-empty. */
  function KeyText(content: string, profileName: Option<string>): string {
    if Given(profileName) then content + profileName.value else content
  }

  /** `_generate_key`; `digest` stands for the hex MD5 of the UTF-8 encoding, left uninterpreted. */
  function Fingerprint(digest: string -> string, content: string, profileName: Option<string>): (r: string)
    ensures Given(profileName) ==> r == digest(content + profileName.value)
    ensures !Given(profileName) ==> r == digest(content)
  {
    digest(KeyText(content, profileName))
  }

  /** A `None` profile and an empty profile name give the same key, the key of the bare content. */
  lemma NoneAndEmptyProfileShareKey(digest: string -> string, content: string)
    ensures Fingerprint(digest, content, None) == Fingerprint(digest, content, Some(""))
    ensures Fingerprint(digest, content, None) == digest(content)
  {
  }

  /** The key depends only on the text digested: two pairs whose content-then-profile texts
      agree share a key, whether or not either pair has a profile name. */
  lemma SameConcatenationSameKey(digest: string -> string, c1: string, p1: Option<string>,
                                 c2: string, p2: Option<string>)
    requires KeyText(c1, p1) == KeyText(c2, p2)
    ensures Fingerprint(digest, c1, p1) == Fingerprint(digest, c2, p2)
  {
  }

  /** For the same content, distinct profile names (an absent or empty name counting as "") give
      distinct texts to digest; only a digest collision can then merge their entries. */
  lemma DistinctProfilesDistinctKeyText(content: string, p1: Option<string>, p2: Option<string>)
    requires (if Given(p1) then p1.value else "") != (if Given(p2) then p2.value else "")
    ensures KeyText(content, p1) != KeyText(content, p2)
  {
    var n1 := if Given(p1) then p1.value else "";
    var n2 := if Given(p2) then p2.value else "";
    assert KeyText(content, p1) == content + n1 && KeyText(content, p2) == content + n2;
    assert (content + n1)[|content|..] == n1 && (content + n2)[|content|..] == n2;
  }

  class SummaryManager {
    const digest: string -> string
    var summaries: map<string, string>
    /** The map the summaries file holds: the one it was read from or the one last written to it;
        `None` while it holds none (missing or corrupt, and not yet written). */
    ghost var saved: Option<map<string, string>>

    /** `__init__` with `_load_summaries`: a missing or corrupt file gives the empty cache. */
    constructor (file: SummaryFile, digest: string -> string)
      ensures this.digest == digest
      ensures file.Parsed? ==> summaries == file.entries
      ensures !file.Parsed? ==> summaries == map[]
      ensures saved == if file.Parsed? then Some(file.entries) else None
    {
      this.digest := digest;
      match file {
        case Parsed(entries) => summaries := entries;
        case _ => summaries := map[];
      }
      saved := if file.Parsed? then Some(file.entries) else None;
    }

    /** `get_summary`: the stored summary for the pair's key, `None` when there is none. */
    function GetSummary(content: string, profileName: Option<string>): (r: Option<string>)
      reads this
      ensures r.Some? <==> Fingerprint(digest, content, profileName) in summaries
      ensures r.Some? ==> r.value == summaries[Fingerprint(digest, content, profileName)]
    {
      var key := Fingerprint(digest, content, profileName);
      if key in summaries then Some(summaries[key]) else None
    }

    /** `save_summary`: overwrite the entry for the pair's key, keep every other entry, persist. */
    method SaveSummary(content: string, summary: string, profileName: Option<string>)
      modifies this
      ensures summaries == old(summaries)[Fingerprint(digest, content, profileName) := summary]
      ensures GetSummary(content, profileName) == Some(summary)
      ensures summaries.Keys == old(summaries).Keys + {Fingerprint(digest, content, profileName)}
      ensures forall k :: k in old(summaries) && k != Fingerprint(digest, content, profileName) ==>
        summaries[k] == old(summaries)[k]
      ensures saved == Some(summaries)
    {
      var key := Fingerprint(digest, content, profileName);
      summaries := summaries[key := summary];
      saved := Some(summaries);
    }
  }

  /** A client of the cache: reading back a saved pair gives the summary; a pair whose
      key differs sees what it saw before. */
  method SaveThenGet(cache: SummaryManager, content: string, summary: string, profileName: Option<string>,
                     otherContent: string, otherProfile: Option<string>)
    modifies cache
    ensures cache.GetSummary(content, profileName) == Some(summary)
    ensures Fingerprint(cache.digest, otherContent, otherProfile) != Fingerprint(cache.digest, content, profileName) ==>
      cache.GetSummary(otherContent, otherProfile) == old(cache.GetSummary(otherContent, otherProfile))
  {
    cache.SaveSummary(content, summary, profileName);
  }
}
