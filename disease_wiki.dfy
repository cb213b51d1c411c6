/**
 * The disease encyclopedia page: a fixed list of diseases named in English
 * and Bangla, a search over the names in the chosen language, the language
 * choice kept in local storage, and the summary fetched from Wikipedia for
 * the selected disease. Wikipedia's answer is an input.
 */
module DiseaseWiki {
  import opened Wrappers
  import opened Http
  import opened Text
  import opened Seqs

  /** A disease with its English and Bangla article titles. */
  datatype Disease = Disease(en: string, bn: string)

  const Diseases: seq<Disease> := [
    Disease("Malaria", "ম্যালেরিয়া"),
    Disease("Dengue fever", "ডেঙ্গু জ্বর"),
    Disease("Cholera", "কলেরা"),
    Disease("Typhoid fever", "টাইফয়েড জ্বর"),
    Disease("Tuberculosis", "যক্ষ্মা"),
    Disease("Pneumonia", "নিউমোনিয়া"),
    Disease("Rabies", "জলাতঙ্ক"),
    Disease("Scabies", "খোসপাঁচড়া"),
    Disease("Snakebite", "সাপের কামড়"),
    Disease("Diarrhea", "ডায়রিয়া"),
    Disease("Heat stroke", "হিট স্ট্রোক"),
    Disease("Food poisoning", "খাদ্যে বিষক্রিয়া")
  ]

  const LanguageKey := "wikiLanguage"

  /**
   * The language at start: the stored one, or Bangla when nothing (or the
   * empty text) is stored. A stored value is taken as it is.
   */
  function InitialLang(storage: map<string, string>): (r: string)
    ensures LanguageKey in storage && storage[LanguageKey] != "" ==> r == storage[LanguageKey]
    ensures !(LanguageKey in storage && storage[LanguageKey] != "") ==> r == "bn"
    ensures r != ""
  {
    OrElse(if LanguageKey in storage then Some(storage[LanguageKey]) else None, "bn")
  }

  /** The language button: English becomes Bangla, anything else English. */
  function Toggle(lang: string): (r: string)
    ensures r == "en" || r == "bn"
    ensures r != lang || (lang != "en" && lang != "bn")
  {
    if lang == "en" then "bn" else "en"
  }

  /** Two presses bring back English or Bangla; any other stored value becomes English at the first press. */
  lemma ToggleTwice(lang: string)
    ensures lang == "en" || lang == "bn" ==> Toggle(Toggle(lang)) == lang
    ensures lang != "en" ==> Toggle(lang) == "en"
  {
  }

  /** The name of a disease in the page's language, which is also the title looked up. */
  function Title(d: Disease, lang: string): (r: string)
    ensures lang == "en" ==> r == d.en
    ensures lang != "en" ==> r == d.bn
  {
    if lang == "en" then d.en else d.bn
  }

  predicate MatchesSearch(d: Disease, lang: string, term: string) {
    Includes(ToLower(Title(d, lang)), ToLower(term))
  }

  /** `filteredDiseases`. */
  function FilterDiseases(diseases: seq<Disease>, lang: string, term: string): seq<Disease> {
    Filter(diseases, d => MatchesSearch(d, lang, term))
  }

  /**
   * The search keeps exactly the diseases whose name in the page's
   * language contains the search text, ignoring case, in the list's order;
   * an empty search keeps all of them.
   */
  lemma FilterDiseasesExact(diseases: seq<Disease>, lang: string, term: string)
    ensures forall d :: d in FilterDiseases(diseases, lang, term) <==>
      d in diseases && Includes(ToLower(Title(d, lang)), ToLower(term))
    ensures IsSubsequence(FilterDiseases(diseases, lang, term), diseases)
    ensures term == "" ==> FilterDiseases(diseases, lang, term) == diseases
  {
    FilterMembers(diseases, d => MatchesSearch(d, lang, term));
    FilterIsSubsequence(diseases, d => MatchesSearch(d, lang, term));
    if term == "" {
      forall i | 0 <= i < |diseases| ensures MatchesSearch(diseases[i], lang, term) {
        IncludesEmpty(ToLower(Title(diseases[i], lang)));
      }
      FilterAllPass(diseases, d => MatchesSearch(d, lang, term));
    }
  }

  /** The summary Wikipedia returns for a page. */
  datatype Summary = Summary(title: string, extract: string, thumbnail: Option<string>, page: string)

  /** The page's state. */
  class Wiki {
    var lang: string
    var storage: map<string, string>
    var searchTerm: string
    var selected: Option<Disease>
    var wikiData: Option<Summary>
    var loading: bool

    /** The language shown is the one stored. */
    ghost predicate Valid()
      reads this
    {
      LanguageKey in storage && storage[LanguageKey] == lang
    }

    /** Mounting: the language read from storage, and written back by the effect that follows. */
    constructor (storage: map<string, string>)
      ensures lang == InitialLang(storage) && this.storage == storage[LanguageKey := lang]
      ensures searchTerm == "" && selected == None && wikiData == None && !loading
      ensures Valid()
    {
      lang := InitialLang(storage);
      this.storage := storage[LanguageKey := InitialLang(storage)];
      searchTerm := "";
      selected := None;
      wikiData := None;
      loading := false;
    }

    /** The language button, and the effect that stores the new language. */
    method ToggleLanguage()
      modifies this
      ensures lang == Toggle(old(lang)) && storage == old(storage)[LanguageKey := lang]
      ensures selected == old(selected) && wikiData == old(wikiData) && searchTerm == old(searchTerm)
      ensures loading == old(loading)
      ensures Valid()
    {
      lang := Toggle(lang);
      storage := storage[LanguageKey := lang];
    }

    /**
     * The fetch effect. `answer` is Wikipedia's answer: the summary, nothing
     * for a status that is not ok, or a failure. `request` is the wiki
     * (by language) and the title asked for, nothing when no disease is
     * selected.
     */
    method Fetch(answer: Ext<Option<Summary>>) returns (request: Option<(string, string)>)
      modifies this
      ensures selected.None? ==> request.None? && wikiData == old(wikiData) && loading == old(loading)
      ensures selected.Some? ==>
        && request == Some((lang, Title(selected.value, lang)))
        && wikiData == (if answer.Ok? then answer.value else None)
        && !loading
      ensures lang == old(lang) && storage == old(storage) && selected == old(selected)
      ensures searchTerm == old(searchTerm)
    {
      if selected.None? {
        return None;
      }
      loading := true;
      var query := if lang == "en" then selected.value.en else selected.value.bn;
      request := Some((lang, query));
      match answer {
        case Ok(res) =>
          if res.Some? {
            wikiData := res;
          } else {
            wikiData := None;
          }
        case Fail(_) =>
          wikiData := None;
      }
      loading := false;
    }
  }

  /** The search over the built-in list in English finds Malaria by a part of its name in any case. */
  lemma FindsMalaria()
    ensures Disease("Malaria", "ম্যালেরিয়া") in FilterDiseases(Diseases, "en", "MAL")
  {
    var d := Diseases[0];
    assert ToLower(Title(d, "en")) == "malaria";
    assert ToLower("MAL") == "mal";
    assert IsPrefix("mal", "malaria");
    FilterDiseasesExact(Diseases, "en", "MAL");
  }
}
