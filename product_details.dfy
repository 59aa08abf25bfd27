/** The product page's local state: the main image, the chosen colour and
    size, the quantity stepper and the add-to-cart button, each changed by
    its own handler. */
module ProductDetails {
  import Store

  /** One press of the quantity stepper. */
  datatype StepAction = Minus | Plus

  /** The stepper's rule: "minus" lowers the quantity only while it is above
      1, "plus" always raises it by 1. */
  function Step(quantity: int, action: StepAction): (r: int)
    ensures action == Plus ==> r == quantity + 1
    ensures action == Minus ==> r == (if quantity > 1 then quantity - 1 else quantity)
  {
    match action
    case Minus => if quantity > 1 then quantity - 1 else quantity
    case Plus => quantity + 1
  }

  /** The quantity after a run of presses, starting from `quantity`. */
  function Steps(quantity: int, actions: seq<StepAction>): int
    decreases |actions|
  {
    if |actions| == 0 then quantity else Steps(Step(quantity, actions[0]), actions[1..])
  }

  /** A press never takes a quantity of at least 1 below 1. */
  lemma StepKeepsPositive(quantity: int, action: StepAction)
    requires quantity >= 1
    ensures Step(quantity, action) >= 1
  {
  }

  /** Whatever the user presses, the quantity stays at least 1, and it
      never exceeds 1 plus the number of presses of "plus". */
  lemma {:induction false} StepsBounds(quantity: int, actions: seq<StepAction>)
    requires quantity >= 1
    ensures 1 <= Steps(quantity, actions) <= quantity + PlusCount(actions)
    decreases |actions|
  {
    if |actions| > 0 {
      StepKeepsPositive(quantity, actions[0]);
      StepsBounds(Step(quantity, actions[0]), actions[1..]);
    }
  }

  function PlusCount(actions: seq<StepAction>): nat
    decreases |actions|
  {
    if |actions| == 0 then 0 else (if actions[0] == Plus then 1 else 0) + PlusCount(actions[1..])
  }

  /** "minus" at the lower bound is ignored; "plus" then "minus" is no change. */
  lemma StepInverse(quantity: int)
    requires quantity >= 1
    ensures Step(1, Minus) == 1
    ensures Step(Step(quantity, Plus), Minus) == quantity
  {
  }

  /** Adding to the cart is allowed only once a colour and a size are chosen. */
  predicate CanAddToCart(color: string, size: string) {
    color != "" && size != ""
  }

  /** The page's state, updated in place by its handlers. */
  class View {
    var mainImage: string
    var selectedColor: string
    var selectedSize: string
    var quantity: int
    var isButtonDisabled: bool

    /** The stepper never shows less than 1. */
    ghost predicate Valid()
      reads this
    {
      quantity >= 1
    }

    constructor ()
      ensures Valid()
      ensures mainImage == "" && selectedColor == "" && selectedSize == ""
      ensures quantity == 1 && !isButtonDisabled
    {
      mainImage, selectedColor, selectedSize := "", "", "";
      quantity, isButtonDisabled := 1, false;
    }

    /** On mount: the first image becomes the main image when there is one. */
    method Mount(images: seq<Store.Image>)
      modifies this
      ensures |images| > 0 ==> mainImage == images[0].url
      ensures |images| == 0 ==> mainImage == old(mainImage)
      ensures selectedColor == old(selectedColor) && selectedSize == old(selectedSize)
      ensures quantity == old(quantity) && isButtonDisabled == old(isButtonDisabled)
    {
      if |images| > 0 {
        mainImage := images[0].url;
      }
    }

    /** `handleQuantityChanges`. */
    method ChangeQuantity(action: StepAction)
      requires Valid()
      modifies this
      ensures Valid()
      ensures quantity == Step(old(quantity), action)
      ensures mainImage == old(mainImage) && selectedColor == old(selectedColor)
      ensures selectedSize == old(selectedSize) && isButtonDisabled == old(isButtonDisabled)
    {
      if action == Minus && quantity > 1 {
        quantity := quantity - 1;
      }
      if action == Plus {
        quantity := quantity + 1;
      }
    }

    method SelectColor(color: string)
      modifies this
      ensures selectedColor == color
      ensures mainImage == old(mainImage) && selectedSize == old(selectedSize)
      ensures quantity == old(quantity) && isButtonDisabled == old(isButtonDisabled)
    {
      selectedColor := color;
    }

    method SelectSize(size: string)
      modifies this
      ensures selectedSize == size
      ensures mainImage == old(mainImage) && selectedColor == old(selectedColor)
      ensures quantity == old(quantity) && isButtonDisabled == old(isButtonDisabled)
    {
      selectedSize := size;
    }

    /** A thumbnail click. */
    method SelectImage(url: string)
      modifies this
      ensures mainImage == url
      ensures selectedColor == old(selectedColor) && selectedSize == old(selectedSize)
      ensures quantity == old(quantity) && isButtonDisabled == old(isButtonDisabled)
    {
      mainImage := url;
    }

    /** `handleAddToCart`: without a colour and a size it only reports an
        error; otherwise it disables the button until the timer fires. */
    method AddToCart() returns (accepted: bool)
      modifies this
      ensures accepted <==> CanAddToCart(selectedColor, selectedSize)
      ensures isButtonDisabled == (accepted || old(isButtonDisabled))
      ensures mainImage == old(mainImage) && selectedColor == old(selectedColor)
      ensures selectedSize == old(selectedSize) && quantity == old(quantity)
    {
      if selectedColor == "" || selectedSize == "" {
        return false;
      }
      isButtonDisabled := true;
      accepted := true;
    }

    /** The one-second timer set by an accepted add: the button is enabled
        again. */
    method TimerFires()
      modifies this
      ensures !isButtonDisabled
      ensures mainImage == old(mainImage) && selectedColor == old(selectedColor)
      ensures selectedSize == old(selectedSize) && quantity == old(quantity)
    {
      isButtonDisabled := false;
    }
  }

  /** A fresh page refuses to add to the cart until both choices are made. */
  method FreshPageRefusesAdd() returns (accepted: bool)
    ensures !accepted
  {
    var v := new View();
    accepted := v.AddToCart();
  }
}
