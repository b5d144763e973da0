/**
 * The product id as the command-line driver hands it to the facade. The
 * driver lower-cases the whole command line before splitting it, so the id
 * token is lower-cased too, while every catalog id starts with an upper-case
 * letter. Case mapping is modelled for ASCII letters only.
 */
module Cli {
  import Ecommerce

  predicate IsUpper(c: char) { 'A' <= c <= 'Z' }

  predicate IsLower(c: char) { 'a' <= c <= 'z' }

  function LowerChar(c: char): (r: char)
    ensures !IsUpper(r)
    ensures !IsUpper(c) ==> r == c
  {
    if IsUpper(c) then (c as int + 32) as char else c
  }

  function UpperChar(c: char): (r: char)
    ensures !IsLower(r)
    ensures !IsLower(c) ==> r == c
  {
    if IsLower(c) then (c as int - 32) as char else c
  }

  /** The string with every ASCII capital turned into its small letter. */
  function Lower(s: string): (r: string)
    ensures |r| == |s|
    ensures forall i :: 0 <= i < |r| ==> !IsUpper(r[i])
  {
    seq(|s|, i requires 0 <= i < |s| => LowerChar(s[i]))
  }

  /** The string with every ASCII small letter turned into its capital. */
  function Upper(s: string): (r: string)
    ensures |r| == |s|
    ensures forall i :: 0 <= i < |r| ==> !IsLower(r[i])
  {
    seq(|s|, i requires 0 <= i < |s| => UpperChar(s[i]))
  }

  /** Upper-casing after lower-casing is upper-casing. */
  lemma UpperAfterLower(s: string)
    ensures Upper(Lower(s)) == Upper(s)
  {
    forall i | 0 <= i < |s| ensures Upper(Lower(s))[i] == Upper(s)[i] {
      var c := s[i];
      if IsUpper(c) {
        assert LowerChar(c) as int == c as int + 32;
      }
    }
  }

  /** Every catalog id begins with a capital letter and has no small letters. */
  lemma CatalogIdsUpperCase()
    ensures forall k :: k in Ecommerce.Catalog ==> |k| > 0 && IsUpper(k[0])
    ensures forall k :: k in Ecommerce.Catalog ==> Upper(k) == k
  {
  }

  /** The id the driver passes on for the token typed: taken from the lower-cased line. */
  function AsWrittenProductId(typed: string): (r: string)
  {
    Lower(typed)
  }

  /** Whatever is typed, the id the driver passes on is not in the catalog. */
  lemma AsWrittenNeverInCatalog(typed: string)
    ensures AsWrittenProductId(typed) !in Ecommerce.Catalog
  {
    CatalogIdsUpperCase();
  }

  /** The lookup with the fix: the token is upper-cased again before it is looked up. */
  function CorrectedProductId(typed: string): (r: string)
  {
    Upper(Lower(typed))
  }

  /** With the fix, a catalog id typed in any mix of cases finds that product. */
  lemma CorrectedFindsCatalogIds(typed: string, id: string)
    requires id in Ecommerce.Catalog && Upper(typed) == id
    ensures CorrectedProductId(typed) == id
  {
    UpperAfterLower(typed);
  }

  /** In particular the id exactly as the catalog lists it is found. */
  lemma CorrectedFindsListedId(id: string)
    requires id in Ecommerce.Catalog
    ensures CorrectedProductId(id) == id
  {
    CatalogIdsUpperCase();
    CorrectedFindsCatalogIds(id, id);
  }
}
