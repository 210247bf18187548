/**
 * The membership rules of the subscription, favourite and shopping-cart
 * endpoints. Each relation is a set of pairs, unique per pair as its table's
 * `unique_together` demands; a handler looks up its target (404 when it does
 * not exist), checks whether the pair is already there, and inserts or deletes
 * exactly that pair.
 */
module Membership {

  type UserId = int
  type RecipeId = int

  /** The response of a handler: 201, 204, 400 with its error message, or 404. */
  datatype Status = Created | NoContent | BadRequest(message: string) | NotFound

  const CannotSubscribeToSelf: string := "Нельзя подписаться на самого себя"
  const AlreadySubscribed: string := "Вы уже подписаны"
  const NotSubscribed: string := "Вы не подписаны"
  const AlreadyFavorite: string := "Уже в избранном"
  const NotFavorite: string := "Не найдено в избранном"
  const AlreadyInCart: string := "Рецепт уже в корзине."
  const NotInCart: string := "Рецепта нет в корзине."

  class Store {
    var users: set<UserId>
    var recipes: set<RecipeId>
    /** Pairs (subscriber, author). */
    var subscriptions: set<(UserId, UserId)>
    /** Pairs (user, recipe). */
    var favorites: set<(UserId, RecipeId)>
    /** Pairs (user, recipe). */
    var cart: set<(UserId, RecipeId)>

    /** Every pair names existing users and recipes. */
    ghost predicate Valid()
      reads this
    {
      && (forall p :: p in subscriptions ==> p.0 in users && p.1 in users)
      && (forall p :: p in favorites ==> p.0 in users && p.1 in recipes)
      && (forall p :: p in cart ==> p.0 in users && p.1 in recipes)
    }

    /**
     * Nobody is subscribed to themselves. The table does not forbid such a
     * row; only the subscribe handler refuses to create one.
     */
    ghost predicate NoSelfSubscriptions()
      reads this
    {
      forall p :: p in subscriptions ==> p.0 != p.1
    }

    constructor (users: set<UserId>, recipes: set<RecipeId>)
      ensures Valid() && NoSelfSubscriptions()
      ensures this.users == users && this.recipes == recipes
      ensures subscriptions == {} && favorites == {} && cart == {}
    {
      this.users, this.recipes := users, recipes;
      subscriptions, favorites, cart := {}, {}, {};
    }

    /** The recipes in `user`'s shopping cart. */
    function CartOf(user: UserId): set<RecipeId>
      reads this
    {
      set p | p in cart && p.0 == user :: p.1
    }

    /** `UserViewSet.subscribe`: `user` subscribes to `author`. */
    method Subscribe(user: UserId, author: UserId) returns (status: Status)
      requires Valid() && user in users
      modifies this`subscriptions
      ensures Valid()
      ensures author !in users ==> status == NotFound
      ensures author in users && author == user ==> status == BadRequest(CannotSubscribeToSelf)
      ensures author in users && author != user && (user, author) in old(subscriptions) ==>
                status == BadRequest(AlreadySubscribed)
      ensures author in users && author != user && (user, author) !in old(subscriptions) ==> status == Created
      ensures subscriptions == if status == Created then old(subscriptions) + {(user, author)} else old(subscriptions)
      ensures old(NoSelfSubscriptions()) ==> NoSelfSubscriptions()
    {
      if author !in users {
        return NotFound;
      }
      if author == user {
        return BadRequest(CannotSubscribeToSelf);
      }
      if (user, author) in subscriptions {
        return BadRequest(AlreadySubscribed);
      }
      subscriptions := subscriptions + {(user, author)};
      status := Created;
    }

    /** `UserViewSet.unsubscribe`: `user` stops following `author`. */
    method Unsubscribe(user: UserId, author: UserId) returns (status: Status)
      requires Valid() && user in users
      modifies this`subscriptions
      ensures Valid()
      ensures author !in users ==> status == NotFound
      ensures author in users && (user, author) !in old(subscriptions) ==> status == BadRequest(NotSubscribed)
      ensures author in users && (user, author) in old(subscriptions) ==> status == NoContent
      ensures subscriptions == if status == NoContent then old(subscriptions) - {(user, author)} else old(subscriptions)
      ensures old(NoSelfSubscriptions()) ==> NoSelfSubscriptions()
    {
      if author !in users {
        return NotFound;
      }
      if (user, author) !in subscriptions {
        return BadRequest(NotSubscribed);
      }
      subscriptions := subscriptions - {(user, author)};
      status := NoContent;
    }

    /** `RecipeViewSet.favorite`: `user` marks `recipe` as a favourite. */
    method Favorite(user: UserId, recipe: RecipeId) returns (status: Status)
      requires Valid() && user in users
      modifies this`favorites
      ensures Valid()
      ensures recipe !in recipes ==> status == NotFound
      ensures recipe in recipes && (user, recipe) in old(favorites) ==> status == BadRequest(AlreadyFavorite)
      ensures recipe in recipes && (user, recipe) !in old(favorites) ==> status == Created
      ensures favorites == if status == Created then old(favorites) + {(user, recipe)} else old(favorites)
    {
      if recipe !in recipes {
        return NotFound;
      }
      if (user, recipe) in favorites {
        return BadRequest(AlreadyFavorite);
      }
      favorites := favorites + {(user, recipe)};
      status := Created;
    }

    /** `RecipeViewSet.delete_favorite`: `user` removes `recipe` from the favourites. */
    method DeleteFavorite(user: UserId, recipe: RecipeId) returns (status: Status)
      requires Valid() && user in users
      modifies this`favorites
      ensures Valid()
      ensures recipe !in recipes ==> status == NotFound
      ensures recipe in recipes && (user, recipe) in old(favorites) ==> status == NoContent
      ensures recipe in recipes && (user, recipe) !in old(favorites) ==> status == BadRequest(NotFavorite)
      ensures favorites == if status == NoContent then old(favorites) - {(user, recipe)} else old(favorites)
    {
      if recipe !in recipes {
        return NotFound;
      }
      if (user, recipe) in favorites {
        favorites := favorites - {(user, recipe)};
        return NoContent;
      }
      status := BadRequest(NotFavorite);
    }

    /** `RecipeViewSet.add_to_cart`: `user` puts `recipe` in the shopping cart. */
    method AddToCart(user: UserId, recipe: RecipeId) returns (status: Status)
      requires Valid() && user in users
      modifies this`cart
      ensures Valid()
      ensures recipe !in recipes ==> status == NotFound
      ensures recipe in recipes && (user, recipe) in old(cart) ==> status == BadRequest(AlreadyInCart)
      ensures recipe in recipes && (user, recipe) !in old(cart) ==> status == Created
      ensures cart == if status == Created then old(cart) + {(user, recipe)} else old(cart)
      ensures CartOf(user) == if status == Created then old(CartOf(user)) + {recipe} else old(CartOf(user))
    {
      if recipe !in recipes {
        return NotFound;
      }
      if (user, recipe) in cart {
        return BadRequest(AlreadyInCart);
      }
      cart := cart + {(user, recipe)};
      status := Created;
    }

    /** `RecipeViewSet.remove_from_cart`: `user` takes `recipe` out of the shopping cart. */
    method RemoveFromCart(user: UserId, recipe: RecipeId) returns (status: Status)
      requires Valid() && user in users
      modifies this`cart
      ensures Valid()
      ensures recipe !in recipes ==> status == NotFound
      ensures recipe in recipes && (user, recipe) in old(cart) ==> status == NoContent
      ensures recipe in recipes && (user, recipe) !in old(cart) ==> status == BadRequest(NotInCart)
      ensures cart == if status == NoContent then old(cart) - {(user, recipe)} else old(cart)
      ensures CartOf(user) == if status == NoContent then old(CartOf(user)) - {recipe} else old(CartOf(user))
    {
      if recipe !in recipes {
        return NotFound;
      }
      if (user, recipe) in cart {
        cart := cart - {(user, recipe)};
        return NoContent;
      }
      status := BadRequest(NotInCart);
    }
  }

  /**
   * What a client can rely on from the contracts alone: a second identical
   * request is refused and changes nothing, and removing undoes adding.
   */
  method CartRoundTrip(store: Store, user: UserId, recipe: RecipeId)
    requires store.Valid() && user in store.users && recipe in store.recipes
    requires (user, recipe) !in store.cart
    modifies store
    ensures store.cart == old(store.cart)
  {
    var s := store.AddToCart(user, recipe);
    assert s == Created;
    s := store.AddToCart(user, recipe);
    assert s == BadRequest(AlreadyInCart);
    s := store.RemoveFromCart(user, recipe);
    assert s == NoContent;
    s := store.RemoveFromCart(user, recipe);
    assert s == BadRequest(NotInCart);
  }
}
