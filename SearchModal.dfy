/** The search modal: a query box and ten suggestions, each leading to the
    search page with the query in the address. */
module SearchModal {
  import opened Wrappers
  import opened Text

  /** The characters `encodeURIComponent` leaves as they are. */
  predicate Unreserved(c: char) {
    ('A' <= c <= 'Z') || ('a' <= c <= 'z') || ('0' <= c <= '9')
    || c == '-' || c == '_' || c == '.' || c == '!' || c == '~' || c == '*' || c == '\'' || c == '(' || c == ')'
  }

  /** An upper-case hexadecimal digit. */
  function HexChar(d: nat): (c: char)
    requires d < 16
    ensures ('0' <= c <= '9') || ('A' <= c <= 'F')
  {
    if d < 10 then ('0' as int + d) as char else ('A' as int + d - 10) as char
  }

  /** The UTF-8 bytes of a character. */
  function Utf8(c: char): (r: seq<nat>)
    ensures 1 <= |r| <= 4
    ensures forall i :: 0 <= i < |r| ==> r[i] < 256
  {
    var n := c as int;
    if n < 0x80 then [n]
    else if n < 0x800 then [0xC0 + n / 64, 0x80 + n % 64]
    else if n < 0x10000 then [0xE0 + n / 4096, 0x80 + (n / 64) % 64, 0x80 + n % 64]
    else [0xF0 + n / 262144, 0x80 + (n / 4096) % 64, 0x80 + (n / 64) % 64, 0x80 + n % 64]
  }

  /** `%XX` for every byte. */
  function Percent(bytes: seq<nat>): (r: string)
    requires forall i :: 0 <= i < |bytes| ==> bytes[i] < 256
    ensures |r| == 3 * |bytes|
    ensures forall i :: 0 <= i < |r| ==> r[i] == '%' || ('0' <= r[i] <= '9') || ('A' <= r[i] <= 'F')
  {
    if bytes == [] then []
    else ['%', HexChar(bytes[0] / 16), HexChar(bytes[0] % 16)] + Percent(bytes[1..])
  }

  /** `encodeURIComponent`: unreserved characters stay, every other one
      becomes the `%XX` escapes of its UTF-8 bytes. */
  function Encode(s: string): (r: string)
    ensures |r| >= |s|
    ensures forall i :: 0 <= i < |r| ==> Unreserved(r[i]) || r[i] == '%'
  {
    if s == [] then []
    else (if Unreserved(s[0]) then [s[0]] else Percent(Utf8(s[0]))) + Encode(s[1..])
  }

  /** Encoding works character by character. */
  lemma {:induction false} EncodeAppend(a: string, b: string)
    ensures Encode(a + b) == Encode(a) + Encode(b)
  {
    if a == [] {
      assert a + b == b;
    } else {
      assert (a + b)[0] == a[0];
      assert (a + b)[1..] == a[1..] + b;
      EncodeAppend(a[1..], b);
    }
  }

  /** A query of unreserved characters goes into the address as it is. */
  lemma {:induction false} EncodeUnreserved(s: string)
    requires forall i :: 0 <= i < |s| ==> Unreserved(s[i])
    ensures Encode(s) == s
  {
    if s != [] {
      EncodeUnreserved(s[1..]);
    }
  }

  /** The encoded query holds none of the characters that end or split a
      query parameter, so the whole query arrives as the one parameter. */
  lemma EncodedStaysOneParameter(s: string)
    ensures forall i :: 0 <= i < |Encode(s)| ==>
      Encode(s)[i] != '&' && Encode(s)[i] != '#' && Encode(s)[i] != '=' && Encode(s)[i] != '+' && Encode(s)[i] != ' '
  {
  }

  /** The route for a query. */
  function SearchRoute(query: string): (r: string)
    ensures StartsWith(r, "/search?q=") && r[10..] == Encode(query)
  {
    "/search?q=" + Encode(query)
  }

  /** A space becomes `%20`. */
  lemma SpaceEscape()
    ensures Encode(" ") == "%20"
  {
    assert Utf8(' ') == [32];
    assert Percent([32]) == ['%', HexChar(2), HexChar(0)] + Percent([]);
  }

  /** A non-ASCII letter becomes the escapes of its two UTF-8 bytes. */
  lemma SchwaEscape()
    ensures Encode("ə") == "%C9%99"
  {
    assert Utf8('ə') == [0xC9, 0x99];
    assert Percent([0x99]) == ['%', HexChar(9), HexChar(9)] + Percent([]);
    assert Percent([0xC9, 0x99]) == ['%', HexChar(12), HexChar(9)] + Percent([0x99]);
  }

  const PopularSearches: seq<string> := ["AI Art", "Fantasy", "Cyberpunk", "Nature", "Space", "Abstract",
    "Portrait", "Landscape", "Digital Art", "Anime"]

  /** The state of the modal; its visibility belongs to the bottom menu,
      which the `closed` answers of the handlers tell. */
  class SearchBox {
    var searchQuery: string

    constructor()
      ensures searchQuery == ""
    {
      searchQuery := "";
    }

    /** The query box. */
    method SetSearchQuery(text: string)
      modifies this
      ensures searchQuery == text
    {
      searchQuery := text;
    }

    /** `handleSearchSubmit`: a blank query does nothing; any other goes to
        the search page as typed (untrimmed), closes the modal and empties
        the box. */
    method HandleSearchSubmit() returns (navigateTo: Option<string>, closed: bool)
      modifies this
      ensures IsBlank(old(searchQuery)) ==> navigateTo.None? && !closed && searchQuery == old(searchQuery)
      ensures !IsBlank(old(searchQuery)) ==> navigateTo == Some(SearchRoute(old(searchQuery))) && closed && searchQuery == ""
    {
      navigateTo := None;
      closed := false;
      TrimEmptyIffBlank(searchQuery);
      if Trim(searchQuery) != [] {
        navigateTo := Some(SearchRoute(searchQuery));
        closed := true;
        searchQuery := "";
      }
    }

    /** `handleSuggestionClick`: the suggestion goes to the search page,
        the modal closes and the box empties. */
    method HandleSuggestionClick(tag: string) returns (navigateTo: Option<string>, closed: bool)
      modifies this
      ensures navigateTo == Some(SearchRoute(tag)) && closed && searchQuery == ""
    {
      navigateTo := Some(SearchRoute(tag));
      closed := true;
      searchQuery := "";
    }

    /** `handleOverlayClick`: only a click on the overlay itself, not on
        the content inside it, closes the modal and empties the box. */
    method HandleOverlayClick(onOverlayItself: bool) returns (closed: bool)
      modifies this
      ensures closed == onOverlayItself
      ensures onOverlayItself ==> searchQuery == ""
      ensures !onOverlayItself ==> searchQuery == old(searchQuery)
    {
      closed := false;
      if onOverlayItself {
        closed := true;
        searchQuery := "";
      }
    }

    /** `handleClose`: the modal closes and the box empties. */
    method HandleClose() returns (closed: bool)
      modifies this
      ensures closed && searchQuery == ""
    {
      closed := true;
      searchQuery := "";
    }
  }
}
