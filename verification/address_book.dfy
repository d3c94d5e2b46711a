/**
 * The buyer's address book: the saved addresses, adding one through the
 * form, deleting one, and how the chosen delivery address follows those
 * changes. `selected` is the buyer page's chosen address, which the address
 * book sets through its selection callback.
 */
module AddressBook {
  import opened Common
  import opened ApiTypes

  const EMPTY_ADDRESS_FORM := AddressForm("", "", "", "", "")

  /** All five fields are required. */
  predicate AddressFormComplete(f: AddressForm)
  {
    f.rua != "" && f.numero != "" && f.cidade != "" && f.estado != "" && f.cep != ""
  }

  predicate HasAddress(addresses: seq<Address>, id: int)
  {
    exists i :: 0 <= i < |addresses| && addresses[i].id == id
  }

  /** The address a complete form creates. */
  function NewAddress(f: AddressForm, id: int): (a: Address)
    ensures a.id == id
    ensures AddressForm(a.rua, a.numero, a.cidade, a.estado, a.cep) == f
  {
    Address(id, f.rua, f.numero, f.cidade, f.estado, f.cep)
  }

  /** `addresses.filter(addr => addr.id !== id)`. */
  function RemoveAddress(addresses: seq<Address>, id: int): (r: seq<Address>)
    ensures !HasAddress(r, id)
    ensures forall i :: 0 <= i < |r| ==> r[i] in addresses
    ensures forall i :: 0 <= i < |addresses| && addresses[i].id != id ==> addresses[i] in r
  {
    Filter(addresses, (a: Address) => a.id != id)
  }

  /**
   * The choice after deleting `id`, given what is left: the first remaining
   * address if the chosen one was deleted and some remain; nothing if none
   * remain; otherwise the choice stays.
   */
  function SelectionAfterDelete(selected: Option<Address>, id: int, remaining: seq<Address>): (r: Option<Address>)
    ensures remaining == [] ==> r.None?
    ensures remaining != [] && selected.Some? && selected.value.id == id ==> r == Some(remaining[0])
    ensures remaining != [] && !(selected.Some? && selected.value.id == id) ==> r == selected
  {
    if selected.Some? && selected.value.id == id && |remaining| > 0 then Some(remaining[0])
    else if |remaining| == 0 then None
    else selected
  }

  /**
   * The selection invariant: the chosen address is one of the saved ones,
   * and whenever there are saved addresses one of them is chosen.
   */
  ghost predicate SelectionConsistent(addresses: seq<Address>, selected: Option<Address>)
  {
    (selected.Some? ==> selected.value in addresses) && (addresses != [] ==> selected.Some?)
  }

  /** Deleting keeps the selection consistent. */
  lemma DeleteKeepsSelectionConsistent(addresses: seq<Address>, selected: Option<Address>, id: int)
    requires SelectionConsistent(addresses, selected)
    ensures var remaining := RemoveAddress(addresses, id);
            SelectionConsistent(remaining, SelectionAfterDelete(selected, id, remaining))
  {
    var remaining := RemoveAddress(addresses, id);
    if selected.Some? && selected.value.id != id {
      var k :| 0 <= k < |addresses| && addresses[k] == selected.value;
      assert addresses[k] in remaining;
    }
  }

  /** Deleting an address that is not the chosen one, while others remain, keeps the choice. */
  lemma DeleteOtherKeepsChoice(addresses: seq<Address>, selected: Address, id: int)
    requires selected in addresses && selected.id != id
    ensures SelectionAfterDelete(Some(selected), id, RemoveAddress(addresses, id)) == Some(selected)
  {
    var k :| 0 <= k < |addresses| && addresses[k] == selected;
    assert addresses[k] in RemoveAddress(addresses, id);
  }

  /** No two saved addresses share an id (the server assigns them). */
  ghost predicate UniqueAddressIds(addresses: seq<Address>)
  {
    forall i, j :: 0 <= i < j < |addresses| ==> addresses[i].id != addresses[j].id
  }

  /** Deleting keeps the other addresses in their order, each once. */
  lemma RemoveAddressKeepsOrder(addresses: seq<Address>, id: int)
    ensures IsSubsequence(RemoveAddress(addresses, id), addresses)
  {
    FilterIsSubsequence(addresses, (a: Address) => a.id != id);
  }

  /** With unique ids, deleting the address at `k` leaves exactly the ones before and after it. */
  lemma RemoveAddressRemovesOne(addresses: seq<Address>, k: int)
    requires UniqueAddressIds(addresses) && 0 <= k < |addresses|
    ensures RemoveAddress(addresses, addresses[k].id) == addresses[..k] + addresses[k + 1..]
  {
    var id := addresses[k].id;
    FilterRemovesOnlyAt(addresses, (a: Address) => a.id != id, k);
  }

  /** Deleting the chosen address moves the choice to the first address left in the list. */
  lemma DeleteSelectedChoosesFirstLeft(addresses: seq<Address>, k: int)
    requires UniqueAddressIds(addresses) && 0 <= k < |addresses| && |addresses| >= 2
    ensures var id := addresses[k].id;
            SelectionAfterDelete(Some(addresses[k]), id, RemoveAddress(addresses, id))
              == Some(if k == 0 then addresses[1] else addresses[0])
  {
    RemoveAddressRemovesOne(addresses, k);
    var remaining := addresses[..k] + addresses[k + 1..];
    if k == 0 {
      assert remaining[0] == addresses[1];
    } else {
      assert remaining[0] == addresses[0];
    }
  }

  /** Adding an address keeps the selection consistent, choosing the new one when nothing was chosen. */
  lemma AddKeepsSelectionConsistent(addresses: seq<Address>, selected: Option<Address>, a: Address)
    requires SelectionConsistent(addresses, selected)
    ensures SelectionConsistent(addresses + [a], if selected.None? then Some(a) else selected)
  {
    assert a == (addresses + [a])[|addresses|];
    if selected.Some? {
      var k :| 0 <= k < |addresses| && addresses[k] == selected.value;
      assert (addresses + [a])[k] == selected.value;
    }
  }

  class AddressManager {
    var addresses: seq<Address>
    var selected: Option<Address>
    var form: AddressForm

    ghost predicate Valid()
      reads this
    {
      SelectionConsistent(addresses, selected)
    }

    constructor (initialSelection: Option<Address>)
      ensures addresses == [] && selected == initialSelection && form == EMPTY_ADDRESS_FORM
    {
      addresses := [];
      selected := initialSelection;
      form := EMPTY_ADDRESS_FORM;
    }

    /**
     * The load effect: saved addresses, when there are any, replace the list,
     * and the first of them is chosen when nothing was chosen yet.
     */
    method Load(saved: Option<seq<Address>>)
      modifies this
      ensures addresses == (if saved.Some? then saved.value else old(addresses))
      ensures selected == (if saved.Some? && old(selected).None? && saved.value != [] then Some(saved.value[0])
                           else old(selected))
      ensures form == old(form)
      ensures saved.Some? && (old(selected).None? || old(selected).value in saved.value) ==> Valid()
      ensures saved.None? && old(Valid()) ==> Valid()
    {
      if saved.Some? {
        addresses := saved.value;
        if selected.None? && |saved.value| > 0 {
          selected := Some(saved.value[0]);
        }
      }
    }

    method EditForm(f: AddressForm)
      modifies this
      ensures form == f && addresses == old(addresses) && selected == old(selected)
    {
      form := f;
    }

    /**
     * `handleAddAddress`: with every field filled in, the new address goes at
     * the end, becomes the choice if nothing was chosen, and the form is
     * reset; otherwise nothing happens.
     */
    method HandleAddAddress(id: int) returns (added: bool)
      modifies this
      ensures added <==> AddressFormComplete(old(form))
      ensures added ==> addresses == old(addresses) + [NewAddress(old(form), id)] && form == EMPTY_ADDRESS_FORM
      ensures added ==> selected == if old(selected).None? then Some(NewAddress(old(form), id)) else old(selected)
      ensures !added ==> addresses == old(addresses) && selected == old(selected) && form == old(form)
      ensures old(Valid()) ==> Valid()
    {
      added := AddressFormComplete(form);
      if added {
        var a := NewAddress(form, id);
        if Valid() {
          AddKeepsSelectionConsistent(addresses, selected, a);
        }
        addresses := addresses + [a];
        if selected.None? {
          selected := Some(a);
        }
        form := EMPTY_ADDRESS_FORM;
      }
    }

    /** `deleteAddress`. */
    method DeleteAddress(id: int)
      modifies this
      ensures addresses == RemoveAddress(old(addresses), id)
      ensures selected == SelectionAfterDelete(old(selected), id, addresses)
      ensures form == old(form)
      ensures old(Valid()) ==> Valid()
    {
      if Valid() {
        DeleteKeepsSelectionConsistent(addresses, selected, id);
      }
      addresses := RemoveAddress(addresses, id);
      if selected.Some? && selected.value.id == id && |addresses| > 0 {
        selected := Some(addresses[0]);
      } else if |addresses| == 0 {
        selected := None;
      }
    }
  }
}
