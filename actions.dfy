/** The time-range menu of src/components/pages/dashboard/default/Actions.tsx:
    choosing an option sets the dashboard's query string, shows the option on
    the button and closes the menu. */
module ActionsMenu {
  import opened Common

  /** The menu's options, in display order. */
  const Options: seq<string> := ["Today", "Last 7 Days", "Last 30 Days", "Last Year", "All Data"]

  /** The query string an option selects, or `None` for a text that is not
      one of the options. */
  function QueryFor(option: string): (r: Option<string>)
    ensures r.Some? <==> option in Options
  {
    if option == "Today" then Some("?days=1")
    else if option == "Last 7 Days" then Some("?days=7")
    else if option == "Last 30 Days" then Some("?days=30")
    else if option == "Last Year" then Some("?days=365")
    else if option == "All Data" then Some("")
    else None
  }

  /** The number of days a query string covers; `None` for all data. */
  function DaysOf(query: string): Option<nat> {
    if query == "" then None
    else if |query| > 6 && query[..6] == "?days=" && AllDigits(query[6..]) then Some(DigitsValue(query[6..]))
    else None
  }

  /** The option a query string came from. */
  function OptionFor(query: string): string {
    match DaysOf(query)
    case None => "All Data"
    case Some(d) =>
      if d == 1 then "Today" else if d == 7 then "Last 7 Days" else if d == 30 then "Last 30 Days" else "Last Year"
  }

  /** Distinct options select distinct queries: the option can be read back
      from its query, and the query covers the option's number of days. */
  lemma QueryRoundTrip(option: string)
    requires option in Options
    ensures OptionFor(QueryFor(option).value) == option
    ensures DaysOf(QueryFor(option).value) ==
      (if option == "Today" then Some(1) else if option == "Last 7 Days" then Some(7)
       else if option == "Last 30 Days" then Some(30) else if option == "Last Year" then Some(365) else None)
  {
    var q := QueryFor(option).value;
    if option != "All Data" {
      assert q[..6] == "?days=";
      var digits := q[6..];
      if option == "Today" {
        assert digits == "1";
      } else if option == "Last 7 Days" {
        assert digits == "7";
      } else if option == "Last 30 Days" {
        assert digits == "30";
        assert DigitsValue(digits) == DigitsValue("3") * 10 + 0;
      } else {
        assert digits == "365";
        assert digits[..2] == "36" && "36"[..1] == "3";
        assert DigitsValue("36") == DigitsValue("3") * 10 + 6;
        assert DigitsValue(digits) == DigitsValue("36") * 10 + 5;
      }
    }
  }

  /** The component's state: the parent's selected query (set through
      `setSelectedOption`), the button text and whether the menu is open. */
  class Actions {
    var selectedOption: string
    var buttonText: string
    var menuOpen: bool

    constructor (selectedOption: string)
      ensures this.selectedOption == selectedOption && buttonText == "Today" && !menuOpen
    {
      this.selectedOption := selectedOption;
      buttonText := "Today";
      menuOpen := false;
    }

    method HandleClick()
      modifies this
      ensures menuOpen && selectedOption == old(selectedOption) && buttonText == old(buttonText)
    {
      menuOpen := true;
    }

    method HandleClose()
      modifies this
      ensures !menuOpen && selectedOption == old(selectedOption) && buttonText == old(buttonText)
    {
      menuOpen := false;
    }

    /** `handleSelect`: an option of the menu sets its query; any text goes on
        the button and the menu closes. */
    method HandleSelect(option: string)
      modifies this
      ensures selectedOption == QueryFor(option).GetOr(old(selectedOption))
      ensures buttonText == option && !menuOpen
    {
      var query := QueryFor(option);
      if query.Some? {
        selectedOption := query.value;
      }
      buttonText := option;
      HandleClose();
    }
  }

  /** After choosing an option the button names the range the dashboard shows. */
  method ButtonMatchesQuery(initial: string, option: string) returns (menu: Actions)
    requires option in Options
    ensures OptionFor(menu.selectedOption) == menu.buttonText
  {
    menu := new Actions(initial);
    menu.HandleClick();
    menu.HandleSelect(option);
    QueryRoundTrip(option);
  }
}
