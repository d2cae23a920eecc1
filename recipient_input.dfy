/**
 * The composer's recipient field (src/components/mailbox/recipient-input.tsx):
 * typed text is normalised to an address on the mail domain, added once,
 * removed by index, and the keyboard walks the suggestion list. The parent's
 * recipient list, which the field changes through its callback, is a field
 * here; fetching suggestions is an input (`ReceiveSuggestions`).
 */
module RecipientInput {
  import opened Wrappers
  import opened Types
  import opened Text

  /** `normalizeAddress`: trimmed and lower-cased; a bare name gets the mail domain. */
  function NormalizeAddress(input: string): (r: string)
    ensures '@' in r
    ensures '@' !in ToLower(Trim(input)) ==> r == ToLower(Trim(input)) + "@" + EmailDomain
    ensures '@' in ToLower(Trim(input)) ==> r == ToLower(Trim(input))
  {
    var trimmed := ToLower(Trim(input));
    if '@' in trimmed then trimmed else trimmed + "@" + EmailDomain
  }

  /** A normalised address is trimmed, lower-case and holds an '@'. */
  predicate IsNormal(a: string) {
    '@' in a && IsLower(a) && (a != [] ==> !IsJsWhitespace(a[0]) && !IsJsWhitespace(a[|a| - 1]))
  }

  lemma NormalizeIsNormal(input: string)
    ensures IsNormal(NormalizeAddress(input))
  {
    var t := ToLower(Trim(input));
    var s := Trim(input);
    ToLowerIsLower(s);
    if s != [] {
      LowerCharKeepsWhitespace(s[0]);
      LowerCharKeepsWhitespace(s[|s| - 1]);
    }
    if '@' !in t {
      var r := t + "@" + EmailDomain;
      assert r[|r| - 1] == 'k';
      assert r[0] == if t == [] then '@' else t[0];
    }
  }

  /** Normalising a normalised address changes nothing. */
  lemma NormalizeIdempotent(input: string)
    ensures NormalizeAddress(NormalizeAddress(input)) == NormalizeAddress(input)
  {
    var r := NormalizeAddress(input);
    NormalizeIsNormal(input);
    TrimOfTrimmed(r);
    ToLowerOfLower(r);
  }

  /** A bare name, already trimmed and lower-case, becomes the name at the mail domain. */
  lemma BareNameGetsDomain(name: string)
    requires '@' !in name && IsLower(name)
    requires name != [] ==> !IsJsWhitespace(name[0]) && !IsJsWhitespace(name[|name| - 1])
    ensures NormalizeAddress(name) == name + "@" + EmailDomain
  {
    TrimOfTrimmed(name);
    ToLowerOfLower(name);
  }

  /** The recipient named by such an address gets the name back. */
  lemma BareNameIsLocalPart(name: string)
    requires '@' !in name && IsLower(name)
    requires name != [] ==> !IsJsWhitespace(name[0]) && !IsJsWhitespace(name[|name| - 1])
    ensures LocalPart(NormalizeAddress(name)) == name
  {
    BareNameGetsDomain(name);
    LocalPartOfConcat(name, EmailDomain);
  }

  // ---- The recipient list ----

  /** `recipients.some(r => r.address === address)`. */
  predicate HasAddress(rs: seq<PersonItem>, a: string) {
    exists i :: 0 <= i < |rs| && rs[i].address == a
  }

  predicate DistinctAddresses(rs: seq<PersonItem>) {
    forall i, j :: 0 <= i < j < |rs| ==> rs[i].address != rs[j].address
  }

  /** Input `addRecipient` ignores: nothing, or only the domain. */
  predicate Ignored(address: string) {
    address == "" || address == "@" + EmailDomain
  }

  /** `recipients.filter((_, i) => i !== index)`. */
  function Removed(rs: seq<PersonItem>, index: int): (r: seq<PersonItem>)
    ensures 0 <= index < |rs| ==> |r| == |rs| - 1
    ensures 0 <= index < |rs| ==> forall i :: 0 <= i < |r| ==> r[i] == if i < index then rs[i] else rs[i + 1]
    ensures !(0 <= index < |rs|) ==> r == rs
  {
    if 0 <= index < |rs| then rs[..index] + rs[index + 1..] else rs
  }

  /** The field's state, and the parent's recipient list. */
  datatype InputView = InputView(recipients: seq<PersonItem>, inputValue: string, suggestions: seq<string>,
                                 showSuggestions: bool, selectedSuggestion: int)

  /** The field keeps the listed addresses distinct and the highlighted suggestion at -1 (none) or above. */
  predicate Invariant(v: InputView) {
    DistinctAddresses(v.recipients) && v.selectedSuggestion >= -1
  }

  /**
   * `addRecipient(value)`: ignored input changes nothing; an address already
   * listed only clears the text; a new one is appended, named by its local
   * part, and the text and suggestions are reset.
   */
  function AddSpec(v: InputView, value: string): (r: InputView) {
    var address := NormalizeAddress(value);
    if Ignored(address) then v
    else if HasAddress(v.recipients, address) then v.(inputValue := "")
    else v.(recipients := v.recipients + [PersonItem(LocalPart(address), address)], inputValue := "",
            suggestions := [], showSuggestions := false, selectedSuggestion := -1)
  }

  /** Adding keeps the invariant; the address is listed afterwards, exactly once more when it was new, at the end. */
  lemma AddKeepsAddressesDistinct(v: InputView, value: string)
    requires Invariant(v)
    ensures var r := AddSpec(v, value); var a := NormalizeAddress(value);
      && Invariant(r)
      && (Ignored(a) ==> r == v)
      && (!Ignored(a) ==> HasAddress(r.recipients, a))
      && (!Ignored(a) && !HasAddress(v.recipients, a) ==> r.recipients == v.recipients + [PersonItem(LocalPart(a), a)])
      && (HasAddress(v.recipients, a) ==> r.recipients == v.recipients)
  {
    var a := NormalizeAddress(value);
    var r := AddSpec(v, value);
    if !Ignored(a) {
      if HasAddress(v.recipients, a) {
      } else {
        assert r.recipients[|v.recipients|].address == a;
      }
    }
  }

  /** Adding the same text twice lists it once. */
  lemma AddTwiceIsAddOnce(v: InputView, value: string)
    ensures AddSpec(AddSpec(v, value), value).recipients == AddSpec(v, value).recipients
  {
    var a := NormalizeAddress(value);
    var r := AddSpec(v, value);
    if !Ignored(a) && !HasAddress(v.recipients, a) {
      assert r.recipients[|v.recipients|].address == a;
    }
  }

  /** Blank text adds nothing: it normalises to the bare domain. */
  lemma BlankInputIgnored(v: InputView, value: string)
    requires Trim(value) == ""
    ensures AddSpec(v, value) == v
  {
    assert ToLower(Trim(value)) == "";
    assert NormalizeAddress(value) == "" + "@" + EmailDomain;
  }

  /** Removing by index keeps the addresses distinct. */
  lemma RemovedKeepsDistinct(rs: seq<PersonItem>, index: int)
    requires DistinctAddresses(rs)
    ensures DistinctAddresses(Removed(rs, index))
  {
    var r := Removed(rs, index);
    if 0 <= index < |rs| {
      forall i, j | 0 <= i < j < |r|
        ensures r[i].address != r[j].address
      {
        var i', j' := if i < index then i else i + 1, if j < index then j else j + 1;
        assert r[i] == rs[i'] && r[j] == rs[j'] && i' < j';
      }
    }
  }

  // ---- Keys ----

  datatype Key = Enter | Comma | Backspace | ArrowDown | ArrowUp | Escape | OtherKey

  /** The highlighted suggestion, when it exists and is not empty. */
  function Highlighted(v: InputView): string {
    if 0 <= v.selectedSuggestion < |v.suggestions| then v.suggestions[v.selectedSuggestion] else ""
  }

  /** `handleKeyDown`. */
  function KeySpec(v: InputView, key: Key): (r: InputView) {
    match key
    case Enter | Comma =>
      if Highlighted(v) != "" then AddSpec(v, Highlighted(v))
      else if Trim(v.inputValue) != "" then AddSpec(v, v.inputValue)
      else v
    case Backspace =>
      if v.inputValue == "" && |v.recipients| > 0 then v.(recipients := Removed(v.recipients, |v.recipients| - 1)) else v
    case ArrowDown =>
      v.(selectedSuggestion := if v.selectedSuggestion < |v.suggestions| - 1 then v.selectedSuggestion + 1 else v.selectedSuggestion)
    case ArrowUp =>
      v.(selectedSuggestion := if v.selectedSuggestion > 0 then v.selectedSuggestion - 1 else -1)
    case Escape => v.(showSuggestions := false)
    case OtherKey => v
  }

  /**
   * ArrowDown never moves past the last suggestion and ArrowUp never below
   * -1; from a suggestion in range, down then up comes back.
   */
  lemma ArrowsStayInRange(v: InputView)
    requires v.selectedSuggestion >= -1
    ensures var d := KeySpec(v, ArrowDown).selectedSuggestion;
      && d >= v.selectedSuggestion
      && (v.selectedSuggestion <= |v.suggestions| - 1 ==> d <= |v.suggestions| - 1)
      && (d != v.selectedSuggestion ==> d == v.selectedSuggestion + 1 <= |v.suggestions| - 1)
    ensures var u := KeySpec(v, ArrowUp).selectedSuggestion;
      -1 <= u <= v.selectedSuggestion && (v.selectedSuggestion >= 0 ==> u == v.selectedSuggestion - 1)
    ensures v.selectedSuggestion < |v.suggestions| - 1 ==>
      KeySpec(KeySpec(v, ArrowDown), ArrowUp).selectedSuggestion == v.selectedSuggestion
  {
  }

  /** Backspace on empty text removes the last recipient and keeps the others in order. */
  lemma BackspaceRemovesLast(v: InputView)
    requires v.inputValue == "" && |v.recipients| > 0
    ensures KeySpec(v, Backspace).recipients == v.recipients[..|v.recipients| - 1]
  {
  }

  /** Every key keeps the field's invariant. */
  lemma KeysKeepInvariant(v: InputView, key: Key)
    requires Invariant(v)
    ensures Invariant(KeySpec(v, key))
  {
    match key
    case Enter | Comma =>
      AddKeepsAddressesDistinct(v, Highlighted(v));
      AddKeepsAddressesDistinct(v, v.inputValue);
    case Backspace =>
      RemovedKeepsDistinct(v.recipients, |v.recipients| - 1);
    case _ =>
  }

  /** Typing: the text, the open suggestion list, no highlight; blank text empties the suggestions. */
  function TypeSpec(v: InputView, value: string): (r: InputView)
    ensures Invariant(v) ==> Invariant(r)
    ensures r.recipients == v.recipients && r.inputValue == value && r.selectedSuggestion == -1
  {
    v.(inputValue := value, showSuggestions := true, selectedSuggestion := -1,
       suggestions := if Trim(value) == "" then [] else v.suggestions)
  }

  class RecipientField {
    var recipients: seq<PersonItem>
    var inputValue: string
    var suggestions: seq<string>
    var showSuggestions: bool
    var selectedSuggestion: int

    function View(): InputView
      reads this
    {
      InputView(recipients, inputValue, suggestions, showSuggestions, selectedSuggestion)
    }

    constructor (recipients: seq<PersonItem>)
      ensures View() == InputView(recipients, "", [], false, -1)
    {
      this.recipients := recipients;
      inputValue, suggestions, showSuggestions, selectedSuggestion := "", [], false, -1;
    }

    /** The input's `onChange`, with the effect that empties the suggestions for blank text. */
    method Type(value: string)
      modifies this
      ensures View() == TypeSpec(old(View()), value)
    {
      inputValue, showSuggestions, selectedSuggestion := value, true, -1;
      if Trim(value) == "" {
        suggestions := [];
      }
    }

    /** Suggestions fetched for the text (`None` for an error or no list). */
    method ReceiveSuggestions(fetched: Option<seq<string>>)
      modifies this
      ensures View() == old(View()).(suggestions := OrEmpty(fetched))
    {
      suggestions := OrEmpty(fetched);
    }

    method AddRecipient(value: string)
      modifies this
      ensures View() == AddSpec(old(View()), value)
    {
      var address := NormalizeAddress(value);
      if address == "" || address == "@" + EmailDomain {
        return;
      }
      if exists i :: 0 <= i < |recipients| && recipients[i].address == address {
        inputValue := "";
        return;
      }
      var name := LocalPart(address);
      recipients := recipients + [PersonItem(name, address)];
      inputValue, suggestions, showSuggestions, selectedSuggestion := "", [], false, -1;
    }

    method RemoveRecipient(index: int)
      modifies this
      ensures View() == old(View()).(recipients := Removed(old(recipients), index))
    {
      recipients := Removed(recipients, index);
    }

    method HandleKeyDown(key: Key)
      modifies this
      ensures View() == KeySpec(old(View()), key)
    {
      match key
      case Enter | Comma =>
        if 0 <= selectedSuggestion < |suggestions| && suggestions[selectedSuggestion] != "" {
          AddRecipient(suggestions[selectedSuggestion]);
        } else if Trim(inputValue) != "" {
          AddRecipient(inputValue);
        }
      case Backspace =>
        if inputValue == "" && |recipients| > 0 {
          RemoveRecipient(|recipients| - 1);
        }
      case ArrowDown =>
        if selectedSuggestion < |suggestions| - 1 {
          selectedSuggestion := selectedSuggestion + 1;
        }
      case ArrowUp =>
        selectedSuggestion := if selectedSuggestion > 0 then selectedSuggestion - 1 else -1;
      case Escape =>
        showSuggestions := false;
      case OtherKey =>
    }
  }
}
