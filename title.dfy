/**
 * The name of the saved model description (get_model_title_string,
 * classifier_model_creator.py:148-154): the date stamp with blanks turned into
 * '_' and colons into '-', then '_', the caller's name and ".json". The date
 * stamp comes from the clock in the source; here it is a parameter.
 */
module ModelTitle {
  /** Python's `s.replace(from, to)` for single characters: every occurrence is replaced. */
  function Replace(s: string, from: char, to: char): (r: string)
    ensures |r| == |s|
    ensures forall i :: 0 <= i < |s| ==> r[i] == (if s[i] == from then to else s[i])
    ensures from != to ==> from !in r
  {
    if s == [] then []
    else [if s[0] == from then to else s[0]] + Replace(s[1..], from, to)
  }

  /** The date stamp as it appears in the file name. */
  function SanitizeDate(date: string): (d: string)
    ensures |d| == |date|
    ensures ' ' !in d && ':' !in d
    ensures forall i :: 0 <= i < |date| ==>
      d[i] == (if date[i] == ' ' then '_' else if date[i] == ':' then '-' else date[i])
  {
    Replace(Replace(date, ' ', '_'), ':', '-')
  }

  /** The title of line 153. */
  function TitleString(date: string, name: string): (t: string)
    ensures |t| == |date| + |name| + 6
    ensures ' ' !in t[..|date|] && ':' !in t[..|date|]
    ensures t[|t| - 5..] == ".json"
  {
    SanitizeDate(date) + "_" + name + ".json"
  }

  /** The part of a title that holds the name, given the length of the date stamp. */
  function NameOf(title: string, dateLength: nat): string
    requires dateLength + 6 <= |title|
  {
    title[dateLength + 1 .. |title| - 5]
  }

  /**
   * The title is the cleaned date, '_', the unaltered name and ".json":
   * the name can be read back out of it, and the date part holds no blank or colon.
   */
  lemma TitleLayout(date: string, name: string)
    ensures var t := TitleString(date, name);
      |t| == |date| + |name| + 6 &&
      t[..|date|] == SanitizeDate(date) &&
      ' ' !in t[..|date|] && ':' !in t[..|date|] &&
      t[|date|] == '_' &&
      NameOf(t, |date|) == name &&
      t[|t| - 5..] == ".json"
  {
  }

  /** Two names give the same title for the same date only when they are equal. */
  lemma TitleInjective(date: string, name1: string, name2: string)
    requires TitleString(date, name1) == TitleString(date, name2)
    ensures name1 == name2
  {
    TitleLayout(date, name1);
    TitleLayout(date, name2);
  }

  /** A stamp of the form YYYY-MM-DD, as `str(datetime.date.today())` gives, passes unchanged. */
  lemma PlainDateUnchanged(date: string)
    requires ' ' !in date && ':' !in date
    ensures SanitizeDate(date) == date
  {
  }
}
