/** HAL links: a single link, and the set of links held under one relation name
    (service/src/http/hal/links.rs). */
module HalLinks {
  import opened Wrappers

  /** A single link in a resource: its href and an optional name. */
  datatype Link = Link(href: string, name: Option<string>)

  /** `Link::from`: a link to `href` that carries no name. */
  function LinkFrom(href: string): (l: Link)
    ensures l.href == href
    ensures l.name == None
  {
    Link(href, None)
  }

  /** The links held under one name: a single link, or a list of them. */
  datatype Links = Single(link: Link) | Multiple(links: seq<Link>)

  /** The links a `Links` value holds, in order, whatever its variant. */
  function Items(ls: Links): (s: seq<Link>)
    ensures ls.Single? ==> s == [ls.link]
    ensures ls.Multiple? ==> s == ls.links
  {
    match ls
    case Single(l) => [l]
    case Multiple(xs) => xs
  }

  /** The number of links held; a `Single` counts as one. */
  function Count(ls: Links): (n: nat)
    ensures ls.Single? ==> n == 1
    ensures ls.Multiple? ==> n == |ls.links|
  {
    |Items(ls)|
  }

  /** `Links::append`: the result is always `Multiple`, holds the previous
      links in their previous order, and ends with the new link. */
  function Append(ls: Links, link: Link): (r: Links)
    ensures r.Multiple?
    ensures Items(r) == Items(ls) + [link]
  {
    match ls
    case Single(previous) => Multiple([previous, link])
    case Multiple(previous) => Multiple(previous + [link])
  }

  /** Appending to a single link gives both links, the old one first. */
  lemma AppendToSingle(a: Link, b: Link)
    ensures Append(Single(a), b) == Multiple([a, b])
  {
  }

  /** Appending to a list keeps its order and puts the new link last. */
  lemma AppendToMultiple(xs: seq<Link>, l: Link)
    ensures Append(Multiple(xs), l) == Multiple(xs + [l])
  {
  }

  /** `append` adds exactly one link and changes none of those already held:
      each keeps its position, href and name. */
  lemma AppendKeepsExisting(ls: Links, l: Link)
    ensures Count(Append(ls, l)) == Count(ls) + 1
    ensures Items(Append(ls, l))[Count(ls)] == l
    ensures forall i :: 0 <= i < Count(ls) ==>
              Items(Append(ls, l))[i].href == Items(ls)[i].href &&
              Items(Append(ls, l))[i].name == Items(ls)[i].name
  {
  }

  /** The unit test `convert_str_to_link`. */
  lemma ConvertStrToLink()
    ensures LinkFrom("/test").href == "/test" && LinkFrom("/test").name == None
  {
  }

  /** The unit tests `append_to_single_link` and `append_to_multiple_links`. */
  lemma AppendTests()
    ensures Append(Single(LinkFrom("/abc")), LinkFrom("/def"))
         == Multiple([LinkFrom("/abc"), LinkFrom("/def")])
    ensures Append(Multiple([LinkFrom("/abc"), LinkFrom("/ghi")]), LinkFrom("/def"))
         == Multiple([LinkFrom("/abc"), LinkFrom("/ghi"), LinkFrom("/def")])
  {
  }
}
