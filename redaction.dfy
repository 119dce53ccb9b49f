/** The field-name test shared by the entity and the request redactors:
    `sensitiveFields.some(f => key.toLowerCase().includes(f.toLowerCase()))`. */
module Redaction {
  import opened Text

  /** The marker that replaces a sensitive value. */
  const REDACTED: string := "***REDACTED***"

  predicate IsSensitive(key: string, terms: seq<string>) {
    exists i :: 0 <= i < |terms| && Contains(Lower(key), Lower(terms[i]))
  }

  /** A key is sensitive as soon as it contains one term, in any letter case. */
  lemma SensitiveByTerm(key: string, terms: seq<string>, i: nat, at: nat)
    requires i < |terms|
    requires at + |terms[i]| <= |key|
    requires Lower(key[at..at + |terms[i]|]) == Lower(terms[i])
    ensures IsSensitive(key, terms)
  {
    var lk, lt := Lower(key), Lower(terms[i]);
    assert lk[at..at + |lt|] == lt;
    ContainsAt(lk, lt, at);
  }
}
