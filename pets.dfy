/**
 * The grooming workspace's pet list: the pets of the day, a search box that
 * filters them by pet or tutor name, and the session view of one pet, whose
 * updates are written back into the list.
 */
module PetsWorkspace {
  import opened Common

  /** A pet card; the grooming log is left out. */
  datatype Pet = Pet(id: string, name: string, breed: string, ownerName: string, currentStage: string)

  /** `MOCK_PETS`, with the names exactly as the source file spells them. */
  const MockPets: seq<Pet> := [
    Pet("1", "PaÃ§oca", "Golden Retriever", "Ana Silva", "BATHING"),
    Pet("2", "Thor", "Bulldog FrancÃªs", "Carlos Souza", "PRE_BATH"),
    Pet("3", "Luna", "Shih Tzu", "Maria Oliveira", "FINISHED")
  ]

  /** `prev.map(p => p.id === updatedPet.id ? updatedPet : p)`. */
  function ReplaceById(pets: seq<Pet>, updated: Pet): (r: seq<Pet>)
    ensures |r| == |pets|
    ensures forall i :: 0 <= i < |pets| ==> r[i] == if pets[i].id == updated.id then updated else pets[i]
  {
    if pets == [] then []
    else [if pets[0].id == updated.id then updated else pets[0]] + ReplaceById(pets[1..], updated)
  }

  /** The search matches the lower-cased pet name or tutor name. */
  predicate Matches(p: Pet, term: string)
  {
    Contains(Lower(p.name), Lower(term)) || Contains(Lower(p.ownerName), Lower(term))
  }

  function SearchFor(term: string): Pet -> bool
  {
    (p: Pet) => Matches(p, term)
  }

  /** `pets.filter(...)` with the search term. */
  function FilteredPets(pets: seq<Pet>, term: string): seq<Pet>
  {
    Filter(pets, SearchFor(term))
  }

  class Workspace {
    var pets: seq<Pet>
    var activePet: Option<Pet>
    var searchTerm: string

    constructor()
      ensures pets == MockPets && activePet == None && searchTerm == ""
    {
      pets := MockPets;
      activePet := None;
      searchTerm := "";
    }

    /** The cards on screen: none while a pet's session is open. */
    function Listed(): seq<Pet>
      reads this
    {
      if activePet.Some? then [] else FilteredPets(pets, searchTerm)
    }

    /** `handlePetUpdate`: the pet is replaced in the list and stays open. */
    method HandlePetUpdate(updated: Pet)
      modifies this
      ensures pets == ReplaceById(old(pets), updated)
      ensures activePet == Some(updated) && searchTerm == old(searchTerm)
    {
      pets := ReplaceById(pets, updated);
      activePet := Some(updated);
    }

    /** A card's `onClick`. */
    method Select(p: Pet)
      modifies this
      ensures activePet == Some(p) && pets == old(pets) && searchTerm == old(searchTerm)
    {
      activePet := Some(p);
    }

    /** The session view's `onBack`: back to the list. */
    method Back()
      modifies this
      ensures activePet == None && pets == old(pets) && searchTerm == old(searchTerm)
      ensures Listed() == FilteredPets(pets, searchTerm)
    {
      activePet := None;
    }

    method SetSearch(t: string)
      modifies this
      ensures searchTerm == t && pets == old(pets) && activePet == old(activePet)
    {
      searchTerm := t;
    }
  }

  // ---------------------------------------------------------------------------
  // Properties.

  /** An update with an id nobody has changes nothing. */
  lemma ReplaceUnknownId(pets: seq<Pet>, updated: Pet)
    requires forall p :: p in pets ==> p.id != updated.id
    ensures ReplaceById(pets, updated) == pets
  {
    forall i | 0 <= i < |pets| ensures ReplaceById(pets, updated)[i] == pets[i] {
      assert pets[i] in pets;
    }
  }

  /** Updating twice is updating once, and no pet changes its id. */
  lemma ReplaceIdempotent(pets: seq<Pet>, updated: Pet)
    ensures ReplaceById(ReplaceById(pets, updated), updated) == ReplaceById(pets, updated)
    ensures forall i :: 0 <= i < |pets| ==> ReplaceById(pets, updated)[i].id == pets[i].id
  {
    var once := ReplaceById(pets, updated);
    forall i | 0 <= i < |pets| ensures ReplaceById(once, updated)[i] == once[i] {
    }
  }

  /** After an update the updated pet is in the list, as often as its id was. */
  lemma UpdatedPetListed(pets: seq<Pet>, updated: Pet, i: nat)
    requires i < |pets| && pets[i].id == updated.id
    ensures updated in ReplaceById(pets, updated)
  {
    assert ReplaceById(pets, updated)[i] == updated;
  }

  /** A pet is listed exactly when it is in the list and matches the search. */
  lemma FilteredMembers(pets: seq<Pet>, term: string, p: Pet)
    ensures p in FilteredPets(pets, term) <==> p in pets && Matches(p, term)
  {
  }

  /** An empty search keeps every pet, in order. */
  lemma EmptySearchKeepsAll(pets: seq<Pet>)
    ensures FilteredPets(pets, "") == pets
  {
    forall p | p in pets ensures Matches(p, "") {
      assert Lower("") == "";
      ContainsEmpty(Lower(p.name));
    }
    FilterKeepsAll(pets, SearchFor(""));
  }

  /** The search ignores the case of the term. */
  lemma SearchIgnoresCase(pets: seq<Pet>, term: string)
    ensures FilteredPets(pets, Lower(term)) == FilteredPets(pets, term)
  {
    LowerIdempotent(term);
    FilterAgree(pets, SearchFor(Lower(term)), SearchFor(term));
  }
}
