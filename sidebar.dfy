/** The role-based filter of src/components/sidebar/Sidebar.tsx. The sidebar
    receives its sections as shared objects; the filter for a super user or a
    standard user narrows the pages of the "Admin" section by assigning to
    that section object, so the narrowing outlives the render that made it. */
module SidebarFilter {
  import opened Common

  datatype Page = Page(title: string, href: string)

  /** A section as a value: its title and its pages. */
  datatype SectionValue = SectionValue(title: string, pages: seq<Page>)

  /** A section object of the shared items tree. */
  class Section {
    var title: string
    var pages: seq<Page>

    constructor (title: string, pages: seq<Page>)
      ensures this.title == title && this.pages == pages
    {
      this.title := title;
      this.pages := pages;
    }
  }

  const TemporaryUser := "TEMPORARY_USER"
  const Admin := "ADMIN"
  const SuperUser := "SUPER_USER"
  const StandardUser := "STANDARD_USER"

  /** Whether a role's filter keeps a page of the Admin section. */
  predicate Keeps(role: string, title: string) {
    if role == SuperUser then title != "Manage Access"
    else if role == StandardUser then title == "Alerts"
    else true
  }

  /** The pages of the Admin section a role keeps, in their order. */
  function KeepPages(pages: seq<Page>, role: string): (r: seq<Page>)
    ensures |r| <= |pages|
  {
    if pages == [] then []
    else (if Keeps(role, pages[0].title) then [pages[0]] else []) + KeepPages(pages[1..], role)
  }

  /** A page is kept exactly when it was there and the role keeps its title. */
  lemma {:induction false} KeepPagesMembers(pages: seq<Page>, role: string, p: Page)
    ensures p in KeepPages(pages, role) <==> p in pages && Keeps(role, p.title)
  {
    if pages != [] {
      KeepPagesMembers(pages[1..], role, p);
      assert pages == [pages[0]] + pages[1..];
    }
  }

  lemma {:induction false} KeepPagesIdempotent(pages: seq<Page>, role: string)
    ensures KeepPages(KeepPages(pages, role), role) == KeepPages(pages, role)
  {
    if pages != [] {
      var rest := KeepPages(pages[1..], role);
      KeepPagesIdempotent(pages[1..], role);
      if Keeps(role, pages[0].title) {
        var k := [pages[0]] + rest;
        assert KeepPages(pages, role) == k;
        assert k[0] == pages[0] && k[1..] == rest;
      } else {
        assert KeepPages(pages, role) == [] + rest == rest;
      }
    }
  }

  /** Whether the role's branch narrows the Admin section. */
  predicate Narrows(role: Option<string>) {
    role.Some? && (role.value == SuperUser || role.value == StandardUser)
  }

  /** The sections with the Admin section's pages narrowed for `role`. */
  function Narrowed(items: seq<SectionValue>, role: string): (r: seq<SectionValue>)
    ensures |r| == |items|
    ensures forall i :: 0 <= i < |items| ==>
      r[i] == (if items[i].title == "Admin" then items[i].(pages := KeepPages(items[i].pages, role)) else items[i])
  {
    seq(|items|, i requires 0 <= i < |items| =>
      if items[i].title == "Admin" then items[i].(pages := KeepPages(items[i].pages, role)) else items[i])
  }

  /** The sections a temporary user sees: "User" and "Account", in order. */
  function UserAndAccount(items: seq<SectionValue>): (r: seq<SectionValue>)
    ensures |r| <= |items|
    ensures forall s :: s in r <==> s in items && (s.title == "User" || s.title == "Account")
  {
    if items == [] then []
    else (if items[0].title == "User" || items[0].title == "Account" then [items[0]] else []) + UserAndAccount(items[1..])
  }

  /** What the sidebar shows for a session role; a missing or empty role
      shows every section, as does the admin role and any unknown role. */
  function Visible(items: seq<SectionValue>, role: Option<string>): seq<SectionValue> {
    if role.None? || role.value == "" then items
    else if role.value == TemporaryUser then UserAndAccount(items)
    else if Narrows(role) then Narrowed(items, role.value)
    else items
  }

  /** The sections as values. */
  function Snapshot(items: seq<Section>): (r: seq<SectionValue>)
    reads set s | s in items
    ensures |r| == |items|
    ensures forall i :: 0 <= i < |items| ==> r[i] == SectionValue(items[i].title, items[i].pages)
  {
    if items == [] then [] else [SectionValue(items[0].title, items[0].pages)] + Snapshot(items[1..])
  }

  /** `items.filter(item => item.title === "User" || item.title === "Account")` */
  function FilterTitles(items: seq<Section>): (r: seq<Section>)
    reads set s | s in items
    ensures forall s :: s in r ==> s in items
    ensures Snapshot(r) == UserAndAccount(Snapshot(items))
  {
    if items == [] then []
    else
      var rest := FilterTitles(items[1..]);
      assert Snapshot(items)[1..] == Snapshot(items[1..]);
      if items[0].title == "User" || items[0].title == "Account" then
        assert Snapshot([items[0]] + rest) == [SectionValue(items[0].title, items[0].pages)] + Snapshot(rest);
        [items[0]] + rest
      else
        rest
  }

  /** `filterItems` as written: the shown sections are the role's view of the
      sections as they were, and for a super or standard user the Admin
      section objects themselves are left narrowed. */
  method FilterItems(items: seq<Section>, role: Option<string>) returns (r: seq<Section>)
    modifies set s | s in items
    ensures Snapshot(r) == Visible(old(Snapshot(items)), role)
    ensures Snapshot(items) == (if Narrows(role) then Narrowed(old(Snapshot(items)), role.value) else old(Snapshot(items)))
  {
    if role.None? || role.value == "" {
      return items;
    }
    if role.value == TemporaryUser {
      return FilterTitles(items);
    }
    if !Narrows(role) {
      return items;
    }
    ghost var before := Snapshot(items);
    NarrowAdmin(items, role.value);
    forall i | 0 <= i < |items|
      ensures Snapshot(items)[i] == Narrowed(before, role.value)[i]
    {
      assert before[i] == old(SectionValue(items[i].title, items[i].pages));
    }
    r := items;
  }

  /** The `map` of the narrowing branches: each Admin section object gets its
      pages narrowed, once however often it occurs in `items`. */
  method NarrowAdmin(items: seq<Section>, role: string)
    modifies set s | s in items
    ensures forall s :: s in items ==>
      && s.title == old(s.title)
      && s.pages == (if s.title == "Admin" then KeepPages(old(s.pages), role) else old(s.pages))
  {
    var i := 0;
    while i < |items|
      invariant 0 <= i <= |items|
      invariant forall s :: s in items ==> s.title == old(s.title)
      invariant forall s :: s in items ==>
        s.pages == (if s.title == "Admin" && s in items[..i] then KeepPages(old(s.pages), role) else old(s.pages))
    {
      var s := items[i];
      assert items[..i + 1] == items[..i] + [s];
      if s.title == "Admin" {
        KeepPagesIdempotent(old(s.pages), role);
        s.pages := KeepPages(s.pages, role);
      }
      i := i + 1;
    }
    assert items[..i] == items;
  }

  // ------------------------------------------------------------------ properties

  /** The view per role: everything without a role and for an admin; only
      "User" and "Account" for a temporary user; for a super user the Admin
      section loses "Manage Access" and for a standard user it keeps only
      "Alerts", every other section staying as it was. */
  lemma VisibleByRole(items: seq<SectionValue>, role: Option<string>)
    ensures role.None? || role == Some(Admin) ==> Visible(items, role) == items
    ensures role == Some(TemporaryUser) ==>
      forall s :: s in Visible(items, role) <==> s in items && (s.title == "User" || s.title == "Account")
    ensures Narrows(role) ==>
      && |Visible(items, role)| == |items|
      && forall i :: 0 <= i < |items| ==>
           && Visible(items, role)[i].title == items[i].title
           && (items[i].title != "Admin" ==> Visible(items, role)[i] == items[i])
           && (items[i].title == "Admin" ==>
                 forall p :: p in Visible(items, role)[i].pages <==>
                   p in items[i].pages && (if role.value == SuperUser then p.title != "Manage Access" else p.title == "Alerts"))
  {
    if Narrows(role) {
      forall i | 0 <= i < |items| && items[i].title == "Admin"
        ensures forall p :: p in Visible(items, role)[i].pages <==>
          p in items[i].pages && (if role.value == SuperUser then p.title != "Manage Access" else p.title == "Alerts")
      {
        forall p
          ensures p in Visible(items, role)[i].pages <==> p in items[i].pages && Keeps(role.value, p.title)
        {
          KeepPagesMembers(items[i].pages, role.value, p);
        }
      }
    }
  }

  /** As written, an admin who sees the sidebar after a standard user's
      render on the same items no longer sees an Admin page other than
      "Alerts": the items the admin's render starts from were narrowed. */
  lemma StaleAdminView(items: seq<SectionValue>, i: nat, j: nat)
    requires i < |items| && items[i].title == "Admin"
    requires j < |items[i].pages| && items[i].pages[j].title != "Alerts"
    ensures Visible(Narrowed(items, StandardUser), Some(Admin)) != Visible(items, Some(Admin))
  {
    var after := Visible(Narrowed(items, StandardUser), Some(Admin));
    assert after[i].pages == KeepPages(items[i].pages, StandardUser);
    KeepPagesMembers(items[i].pages, StandardUser, items[i].pages[j]);
    assert items[i].pages[j] !in after[i].pages;
  }
}
