/** The landing page's navigation bar: two dropdown menus and the
    scrolled look. */
module LandingNavbar {

  /** Past how many pixels of scrolling the bar turns opaque. */
  const ScrollThreshold: int := 10

  class Navbar {
    var isScrolled: bool
    var productMenuOpen: bool
    var resourcesMenuOpen: bool

    /** At most one dropdown is open. */
    ghost predicate Valid()
      reads this
    {
      !(productMenuOpen && resourcesMenuOpen)
    }

    constructor ()
      ensures !isScrolled && !productMenuOpen && !resourcesMenuOpen
      ensures Valid()
    {
      isScrolled := false;
      productMenuOpen := false;
      resourcesMenuOpen := false;
    }

    /** Clicking "Products": flips its menu and closes the other one. */
    method ClickProducts()
      modifies this`productMenuOpen, this`resourcesMenuOpen
      ensures productMenuOpen == !old(productMenuOpen) && !resourcesMenuOpen
      ensures Valid()
    {
      productMenuOpen := !productMenuOpen;
      resourcesMenuOpen := false;
    }

    /** Clicking "Resources": flips its menu and closes the other one. */
    method ClickResources()
      modifies this`productMenuOpen, this`resourcesMenuOpen
      ensures resourcesMenuOpen == !old(resourcesMenuOpen) && !productMenuOpen
      ensures Valid()
    {
      resourcesMenuOpen := !resourcesMenuOpen;
      productMenuOpen := false;
    }

    /** Choosing an entry of the product menu closes it. */
    method ChooseProduct()
      requires Valid()
      modifies this`productMenuOpen
      ensures !productMenuOpen && resourcesMenuOpen == old(resourcesMenuOpen)
      ensures Valid()
    {
      productMenuOpen := false;
    }

    /** Choosing an entry of the resources menu closes it. */
    method ChooseResource()
      requires Valid()
      modifies this`resourcesMenuOpen
      ensures !resourcesMenuOpen && productMenuOpen == old(productMenuOpen)
      ensures Valid()
    {
      resourcesMenuOpen := false;
    }

    /** The scroll listener. */
    method OnScroll(scrollY: int)
      modifies this`isScrolled
      ensures isScrolled <==> scrollY > ScrollThreshold
    {
      if scrollY > ScrollThreshold {
        isScrolled := true;
      } else {
        isScrolled := false;
      }
    }
  }

  /** Opening the product menu and then the resources menu closes the product
      menu; choosing a resource then leaves both closed. (That at most one
      menu is ever open is the `Valid()` every handler ensures.) */
  method MenuScenario() returns (productOpen: bool, resourcesOpen: bool)
    ensures !productOpen && !resourcesOpen
  {
    var bar := new Navbar();
    bar.ClickProducts();
    assert bar.productMenuOpen && !bar.resourcesMenuOpen;
    bar.ClickResources();
    assert !bar.productMenuOpen && bar.resourcesMenuOpen;
    bar.ChooseResource();
    productOpen, resourcesOpen := bar.productMenuOpen, bar.resourcesMenuOpen;
  }
}
