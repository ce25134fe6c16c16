/**
 * URL construction for the NCBI E-utilities endpoints (src/api.rs). Both
 * builders splice their arguments into a fixed template verbatim: nothing
 * is escaped or percent-encoded.
 */
module Api {

  const BaseUrl: string := "https://eutils.ncbi.nlm.nih.gov/entrez/eutils/"
  const RetmodeJson: string := "&retmode=json"
  const EsearchHead: string := "https://eutils.ncbi.nlm.nih.gov/entrez/eutils/esearch.fcgi?db=nuccore&term="
  const EfetchHead: string := "https://eutils.ncbi.nlm.nih.gov/entrez/eutils/efetch.fcgi?db=nuccore&id="

  /** Number of template characters in an esearch URL (everything but the two arguments). */
  const EsearchFixedLength: nat := 90
  /** Number of template characters in an efetch URL. */
  const EfetchFixedLength: nat := 94

  /** `build_esearch_url`: search nuccore for `query` restricted to the field `field`. */
  function EsearchUrl(query: string, field: string): (url: string)
    ensures BaseUrl <= url && EsearchHead <= url
    ensures |url| == EsearchFixedLength + |query| + |field|
    ensures url[|url| - |RetmodeJson|..] == RetmodeJson
    ensures url[|EsearchHead|..|EsearchHead| + |query|] == query
    ensures url[|EsearchHead| + |query|] == '['
    ensures url[|EsearchHead| + |query| + 1..|EsearchHead| + |query| + 1 + |field|] == field
    ensures url[|EsearchHead| + |query| + 1 + |field|] == ']'
  {
    EsearchHead + query + "[" + field + "]&retmode=json"
  }

  /** `build_efetch_url`: fetch the nuccore record `id` in the format `rettype`. */
  function EfetchUrl(id: string, rettype: string): (url: string)
    ensures BaseUrl <= url && EfetchHead <= url
    ensures |url| == EfetchFixedLength + |id| + |rettype|
    ensures url[|url| - |RetmodeJson|..] == RetmodeJson
    ensures url[|EfetchHead|..|EfetchHead| + |id|] == id
    ensures url[|EfetchHead| + |id|..|EfetchHead| + |id| + 9] == "&rettype="
    ensures url[|EfetchHead| + |id| + 9..|EfetchHead| + |id| + 9 + |rettype|] == rettype
  {
    EfetchHead + id + "&rettype=" + rettype + "&retmode=json"
  }

  /**
   * Because the query is not escaped, different (query, field) pairs can
   * build the same URL: a `[` inside the query is indistinguishable from
   * the one the template puts before the field.
   */
  lemma EsearchIsAmbiguous()
    ensures EsearchUrl("a[b", "c") == EsearchUrl("a", "b[c")
  {
  }

  /**
   * For one identifier, the GenBank and FASTA fetches go to different
   * URLs, and each URL determines the identifier and the format it asks for.
   */
  lemma EfetchDeterminesArguments(id1: string, t1: string, id2: string, t2: string)
    requires |t1| == |t2|
    requires EfetchUrl(id1, t1) == EfetchUrl(id2, t2)
    ensures id1 == id2 && t1 == t2
  {
  }

  lemma FetchFormatsUseDistinctUrls(id: string)
    ensures EfetchUrl(id, "gb") != EfetchUrl(id, "fasta")
  {
  }
}
