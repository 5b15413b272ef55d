// The bookkeeping of the player-controlled ship of a 2D arcade shooter:
// lives and their icons, damage and respawn, key input, screen confinement
// and the life-icon part of drawing.  Engine collaborators (resource
// manager, screen queries, level, weapons) appear as parameters and as
// request counters.

module PlayerShipModel {

  datatype Option<T> = None | Some(value: T)

  /** A 2D vector of the engine; its float components are modelled as reals. */
  datatype Vec = Vec(x: real, y: real)

  /** A texture handed out by the resource manager; only its centre is read. */
  datatype Texture = Texture(center: Vec)

  /** The keys the ship polls. */
  datatype Key = Up | Down | Left | Right | Space

  /** A movement direction as built from the arrow keys, before diagonal scaling. */
  datatype Direction = Direction(dx: int, dy: int)

  /** One life icon as it is submitted to the sprite batch. */
  datatype IconPlacement = IconPlacement(texture: Texture, at: Vec, scale: real)

  const StartingLives: int := 3
  const DefaultResponsiveness: real := 0.1
  /** Distance below the screen centre at which a loaded ship is placed. */
  const SpawnOffsetY: real := 300.0
  /** Margin between the screen edge and the confinement rectangle. */
  const Padding: int := 4
  const HeartSpacing: int := 50
  const IconMargin: int := 10
  const LifeTextureScale: real := 0.25

  // ---------------------------------------------------------------------
  // Responsiveness

  /** The clamp applied to a requested responsiveness: the nearest value in [0, 1]. */
  function Clamp01(value: real): (r: real)
    ensures 0.0 <= r <= 1.0
    ensures 0.0 <= value <= 1.0 ==> r == value
    ensures value < 0.0 ==> r == 0.0
    ensures 1.0 < value ==> r == 1.0
  {
    if value < 0.0 then 0.0 else if 1.0 < value then 1.0 else value
  }

  // ---------------------------------------------------------------------
  // Life icons

  /** Number of iterations of a counting loop `for (i = 0; i < n; i++)`. */
  function LoopCount(n: int): nat
  {
    if n < 0 then 0 else n
  }

  /** The icon list built from a run of icon loads: the textures that arrived, in order. */
  function LoadedIcons(loads: seq<Option<Texture>>): seq<Texture>
  {
    if loads == [] then []
    else
      var last := loads[|loads| - 1];
      LoadedIcons(loads[..|loads| - 1]) + (if last.Some? then [last.value] else [])
  }

  predicate AllPresent(loads: seq<Option<Texture>>)
  {
    forall k :: 0 <= k < |loads| ==> loads[k].Some?
  }

  /** One icon per successful load: never more icons than loads, and exactly as
      many precisely when no load failed. */
  lemma {:induction false} LoadedIconsLength(loads: seq<Option<Texture>>)
    ensures |LoadedIcons(loads)| <= |loads|
    ensures |LoadedIcons(loads)| == |loads| <==> AllPresent(loads)
  {
    if loads != [] {
      var init := loads[..|loads| - 1];
      LoadedIconsLength(init);
      assert forall k :: 0 <= k < |init| ==> init[k] == loads[k];
    }
  }

  /** Each icon is the texture of some load, so the list holds nothing the
      resource manager did not hand out. */
  lemma {:induction false} LoadedIconsFromLoads(loads: seq<Option<Texture>>, i: nat)
    requires i < |LoadedIcons(loads)|
    ensures Some(LoadedIcons(loads)[i]) in loads
  {
    var init := loads[..|loads| - 1];
    var last := loads[|loads| - 1];
    if i < |LoadedIcons(init)| {
      LoadedIconsFromLoads(init, i);
      assert Some(LoadedIcons(init)[i]) in init;
    } else {
      assert LoadedIcons(loads)[i] == last.value;
    }
  }

  // ---------------------------------------------------------------------
  // Input

  /** One axis of the input direction: +1 for the positive key, -1 for the
      negative one, each counted once. */
  function AxisInput(positive: bool, negative: bool): (a: int)
    ensures -1 <= a <= 1
    ensures a == 0 <==> positive == negative
    ensures a == 1 <==> positive && !negative
    ensures a == -1 <==> negative && !positive
  {
    (if positive then 1 else 0) - (if negative then 1 else 0)
  }

  /** A direction the source scales down by its diagonal constant. */
  predicate IsDiagonal(d: Direction)
  {
    d.dx != 0 && d.dy != 0
  }

  // ---------------------------------------------------------------------
  // Screen confinement

  /** The padded interval [lo, hi] contains the whole sprite of half-extent `half` at `p`. */
  predicate WithinAxis(p: real, half: real, lo: real, hi: real)
  {
    lo <= p - half && p + half <= hi
  }

  /** The two ordered checks of one axis: push off the low edge, then off the
      high edge, the second reading the result of the first. */
  function ConfineAxis(p: real, half: real, lo: real, hi: real): real
  {
    var pushed := if p - half < lo then lo + half else p;
    if pushed + half > hi then hi - half else pushed
  }

  /** When the sprite fits in the padded interval, confinement puts it inside. */
  lemma ConfineAxisFits(p: real, half: real, lo: real, hi: real)
    requires lo + 2.0 * half <= hi
    ensures WithinAxis(ConfineAxis(p, half, lo, hi), half, lo, hi)
  {
  }

  /** A sprite already inside is not moved. */
  lemma ConfineAxisKeepsInside(p: real, half: real, lo: real, hi: real)
    requires WithinAxis(p, half, lo, hi)
    ensures ConfineAxis(p, half, lo, hi) == p
  {
  }

  /** A sprite wider than the padded interval always ends against the high
      edge: the second check wins. */
  lemma ConfineAxisTooWide(p: real, half: real, lo: real, hi: real)
    requires hi < lo + 2.0 * half
    ensures ConfineAxis(p, half, lo, hi) == hi - half
    ensures !WithinAxis(ConfineAxis(p, half, lo, hi), half, lo, hi)
  {
  }

  /** Confining twice is confining once, whether or not the sprite fits. */
  lemma ConfineAxisIdempotent(p: real, half: real, lo: real, hi: real)
    ensures ConfineAxis(ConfineAxis(p, half, lo, hi), half, lo, hi) == ConfineAxis(p, half, lo, hi)
  {
    if lo + 2.0 * half <= hi {
      ConfineAxisFits(p, half, lo, hi);
      ConfineAxisKeepsInside(ConfineAxis(p, half, lo, hi), half, lo, hi);
    } else {
      ConfineAxisTooWide(p, half, lo, hi);
      ConfineAxisTooWide(ConfineAxis(p, half, lo, hi), half, lo, hi);
    }
  }

  // ---------------------------------------------------------------------
  // Lives under repeated lethal hits

  /** Lives after one hit, as the code is written: a lethal hit decrements, and
      when lives remain the respawn through Initialize sets them back to 3. */
  function LivesAfterHit(lives: int, lethal: bool): int
  {
    if !lethal then lives
    else if lives - 1 <= 0 then lives - 1
    else StartingLives
  }

  /** A lethal hit that deactivates the ship (rather than respawning it). */
  predicate HitDestroys(lives: int)
  {
    lives - 1 <= 0
  }

  function LivesAfterLethalHits(lives: int, hits: nat): int
    decreases hits
  {
    if hits == 0 then lives else LivesAfterLethalHits(LivesAfterHit(lives, true), hits - 1)
  }

  /** With two or more lives, no run of lethal hits ever reaches the branch that
      deactivates the ship: every respawn restores three lives. */
  lemma {:induction false} LethalHitsNeverExhaustLives(lives: int, hits: nat)
    requires lives >= 2
    ensures LivesAfterLethalHits(lives, hits) >= 2
    ensures !HitDestroys(LivesAfterLethalHits(lives, hits))
    ensures hits > 0 ==> LivesAfterLethalHits(lives, hits) == StartingLives
    decreases hits
  {
    if hits > 0 {
      LethalHitsNeverExhaustLives(StartingLives, hits - 1);
    }
  }

  /** The concrete case: a ship with two lives is hit lethally and comes back
      with three instead of one. */
  lemma RespawnFromTwoLivesGivesThree()
    ensures LivesAfterHit(2, true) == 3
    ensures IntendedLivesAfterHit(2, true) == 1
  {
  }

  /** Lives after one hit as evidently intended: a lethal hit costs exactly one life. */
  function IntendedLivesAfterHit(lives: int, lethal: bool): int
  {
    if lethal then lives - 1 else lives
  }

  function IntendedLivesAfterLethalHits(lives: int, hits: nat): int
    decreases hits
  {
    if hits == 0 then lives else IntendedLivesAfterLethalHits(IntendedLivesAfterHit(lives, true), hits - 1)
  }

  /** With the intended rule every lethal hit costs one life, so a ship with
      n >= 1 lives respawns on the first n - 1 lethal hits and is destroyed by
      the n-th. */
  lemma {:induction false} IntendedLethalHitsCountDown(lives: int, hits: nat)
    ensures IntendedLivesAfterLethalHits(lives, hits) == lives - hits
    ensures hits + 1 < lives ==> !HitDestroys(IntendedLivesAfterLethalHits(lives, hits))
    ensures lives >= 1 && hits + 1 == lives ==> HitDestroys(IntendedLivesAfterLethalHits(lives, hits))
    decreases hits
  {
    if hits > 0 {
      IntendedLethalHitsCountDown(lives - 1, hits - 1);
    }
  }

  // ---------------------------------------------------------------------
  // The ship

  /** Where LoadContent places a ship whose texture loaded. */
  function SpawnPoint(screenCenter: Vec): Vec
  {
    Vec(screenCenter.x, screenCenter.y + SpawnOffsetY)
  }

  class PlayerShip {
    const maxHitPoints: real
    var lives: int
    var lifeTextures: seq<Texture>
    var texture: Option<Texture>
    var active: bool
    var hitPoints: real
    var position: Vec
    var velocity: Vec
    var desiredDirection: Direction
    var responsiveness: real
    var confinedToScreen: bool
    /** Weapon firings requested from the weapon system. */
    var shotsRequested: nat
    /** Explosions requested from the level. */
    var explosionsRequested: nat

    /** Drawing indexes one icon per life, so it needs at least that many icons. */
    predicate CanDraw()
      reads this
    {
      !active || lives <= |lifeTextures|
    }

    /** Confinement reads the half-dimensions through the ship texture, so a
        confined ship needs one. */
    predicate CanUpdate()
      reads this
    {
      !confinedToScreen || texture.Some?
    }

    /** Removing a life drops the last icon, so one must be there while lives remain. */
    predicate CanRemoveLife()
      reads this
    {
      lives <= 0 || lifeTextures != []
    }

    /** One icon per life. */
    predicate IconsMatchLives()
      reads this
    {
      |lifeTextures| == lives
    }

    /** A ship before Initialize: no lives, no textures, not active. */
    constructor (maxHitPoints: real)
      ensures this.maxHitPoints == maxHitPoints
      ensures lives == 0 && lifeTextures == [] && texture == None && !active
      ensures hitPoints == maxHitPoints && !confinedToScreen
      ensures shotsRequested == 0 && explosionsRequested == 0
    {
      this.maxHitPoints := maxHitPoints;
      lives := 0;
      lifeTextures := [];
      texture := None;
      active := false;
      hitPoints := maxHitPoints;
      position := Vec(0.0, 0.0);
      velocity := Vec(0.0, 0.0);
      desiredDirection := Direction(0, 0);
      responsiveness := 0.0;
      confinedToScreen := false;
      shotsRequested := 0;
      explosionsRequested := 0;
    }

    /** Half the ship's extent: the centre of its texture. */
    function HalfDimensions(): Vec
      reads this
      requires texture.Some?
    {
      texture.value.center
    }

    method Activate()
      modifies this
      ensures active
      ensures lives == old(lives) && lifeTextures == old(lifeTextures) && texture == old(texture)
      ensures hitPoints == old(hitPoints) && position == old(position) && velocity == old(velocity)
      ensures desiredDirection == old(desiredDirection) && responsiveness == old(responsiveness)
      ensures confinedToScreen == old(confinedToScreen)
      ensures shotsRequested == old(shotsRequested) && explosionsRequested == old(explosionsRequested)
    {
      active := true;
    }

    method SetResponsiveness(value: real)
      modifies this
      ensures responsiveness == Clamp01(value)
      ensures lives == old(lives) && lifeTextures == old(lifeTextures) && texture == old(texture)
      ensures active == old(active) && hitPoints == old(hitPoints)
      ensures position == old(position) && velocity == old(velocity)
      ensures desiredDirection == old(desiredDirection) && confinedToScreen == old(confinedToScreen)
      ensures shotsRequested == old(shotsRequested) && explosionsRequested == old(explosionsRequested)
    {
      responsiveness := Clamp01(value);
    }

    /** Loads the ship texture and, when it arrives, places the ship below the
        screen centre and rebuilds the icon list from one icon load per life.
        `iconLoads[i]` is the resource manager's answer to the i-th icon load. */
    method LoadContent(shipTexture: Option<Texture>, iconLoads: seq<Option<Texture>>, screenCenter: Vec)
      requires lives <= |iconLoads|
      modifies this
      ensures lives == old(lives) && active == old(active) && hitPoints == old(hitPoints)
      ensures confinedToScreen && responsiveness == DefaultResponsiveness
      ensures texture == shipTexture
      ensures shipTexture.None? ==> position == old(position) && lifeTextures == old(lifeTextures)
      ensures shipTexture.None? ==> !CanUpdate()
      ensures shipTexture.Some? ==>
                position == SpawnPoint(screenCenter) &&
                lifeTextures == LoadedIcons(iconLoads[..LoopCount(lives)])
      ensures velocity == old(velocity) && desiredDirection == old(desiredDirection)
      ensures shotsRequested == old(shotsRequested) && explosionsRequested == old(explosionsRequested)
    {
      confinedToScreen := true;
      SetResponsiveness(DefaultResponsiveness);
      texture := shipTexture;
      if shipTexture.None? {
        return;
      }
      position := SpawnPoint(screenCenter);
      lifeTextures := [];
      var i := 0;
      while i < lives
        invariant 0 <= i <= LoopCount(lives)
        invariant lifeTextures == LoadedIcons(iconLoads[..i])
        modifies this`lifeTextures
      {
        assert iconLoads[..i + 1][..i] == iconLoads[..i];
        var lifeTexture := iconLoads[i];
        if lifeTexture.Some? {
          lifeTextures := lifeTextures + [lifeTexture.value];
        }
        i := i + 1;
      }
    }

    /** Resets position, hit points and lives to their start-of-life values and
        loads the content; the activity flag is left as it was. */
    method Initialize(startPosition: Vec, shipTexture: Option<Texture>, iconLoads: seq<Option<Texture>>, screenCenter: Vec)
      requires StartingLives <= |iconLoads|
      modifies this
      ensures lives == StartingLives && hitPoints == maxHitPoints
      ensures texture == shipTexture && confinedToScreen && responsiveness == DefaultResponsiveness
      ensures position == if shipTexture.Some? then SpawnPoint(screenCenter) else startPosition
      ensures lifeTextures == if shipTexture.Some? then LoadedIcons(iconLoads[..StartingLives]) else old(lifeTextures)
      ensures active == old(active) && velocity == old(velocity) && desiredDirection == old(desiredDirection)
      ensures shotsRequested == old(shotsRequested) && explosionsRequested == old(explosionsRequested)
    {
      position := startPosition;
      hitPoints := maxHitPoints;
      lives := StartingLives;
      LoadContent(shipTexture, iconLoads, screenCenter);
    }

    /** Adds a life; the icon list is not extended. */
    method AddLife()
      modifies this
      ensures lives == old(lives) + 1
      ensures lifeTextures == old(lifeTextures)
      ensures old(IconsMatchLives()) && active ==> !CanDraw()
      ensures texture == old(texture) && active == old(active) && hitPoints == old(hitPoints)
      ensures position == old(position) && velocity == old(velocity)
      ensures desiredDirection == old(desiredDirection) && responsiveness == old(responsiveness)
      ensures confinedToScreen == old(confinedToScreen)
      ensures shotsRequested == old(shotsRequested) && explosionsRequested == old(explosionsRequested)
    {
      lives := lives + 1;
    }

    /** AddLife with the icon load its commented-out lines describe: the icon
        list grows with the life whenever the icon arrives. */
    method AddLifeWithIcon(lifeTexture: Option<Texture>)
      modifies this
      ensures lives == old(lives) + 1
      ensures lifeTextures == if lifeTexture.Some? then old(lifeTextures) + [lifeTexture.value] else old(lifeTextures)
      ensures old(IconsMatchLives()) && lifeTexture.Some? ==> IconsMatchLives() && CanDraw()
      ensures texture == old(texture) && active == old(active) && hitPoints == old(hitPoints)
      ensures position == old(position) && velocity == old(velocity)
      ensures desiredDirection == old(desiredDirection) && responsiveness == old(responsiveness)
      ensures confinedToScreen == old(confinedToScreen)
      ensures shotsRequested == old(shotsRequested) && explosionsRequested == old(explosionsRequested)
    {
      lives := lives + 1;
      if lifeTexture.Some? {
        lifeTextures := lifeTextures + [lifeTexture.value];
      }
    }

    /** Takes a life and its icon while lives remain; a ship left with none is
        deactivated.  Dropping the last icon needs one to be there. */
    method RemoveLife()
      requires CanRemoveLife()
      modifies this
      ensures old(lives) > 0 ==>
                lives == old(lives) - 1 && lifeTextures == old(lifeTextures)[..|old(lifeTextures)| - 1]
      ensures old(lives) <= 0 ==> lives == old(lives) && lifeTextures == old(lifeTextures)
      ensures old(lives) >= 0 ==> lives >= 0
      ensures active == (old(active) && lives != 0)
      ensures lives == 0 ==> !active
      ensures old(IconsMatchLives()) ==> IconsMatchLives()
      ensures texture == old(texture) && hitPoints == old(hitPoints)
      ensures position == old(position) && velocity == old(velocity)
      ensures desiredDirection == old(desiredDirection) && responsiveness == old(responsiveness)
      ensures confinedToScreen == old(confinedToScreen)
      ensures shotsRequested == old(shotsRequested) && explosionsRequested == old(explosionsRequested)
    {
      if lives > 0 {
        lives := lives - 1;
        lifeTextures := lifeTextures[..|lifeTextures| - 1];
      }
      if lives == 0 {
        active := false;
      }
    }

    /** RemoveLife with the icon removal guarded: callable in every state, it
        drops an icon only when there is one, and keeps one icon per life. */
    method RemoveLifeChecked()
      modifies this
      ensures old(lives) > 0 ==> lives == old(lives) - 1
      ensures old(lives) <= 0 ==> lives == old(lives)
      ensures lifeTextures ==
                if old(lives) > 0 && old(lifeTextures) != [] then old(lifeTextures)[..|old(lifeTextures)| - 1]
                else old(lifeTextures)
      ensures old(lives) >= 0 ==> lives >= 0
      ensures active == (old(active) && lives != 0)
      ensures old(IconsMatchLives()) ==> IconsMatchLives() && CanRemoveLife()
      ensures texture == old(texture) && hitPoints == old(hitPoints)
      ensures position == old(position) && velocity == old(velocity)
      ensures desiredDirection == old(desiredDirection) && responsiveness == old(responsiveness)
      ensures confinedToScreen == old(confinedToScreen)
      ensures shotsRequested == old(shotsRequested) && explosionsRequested == old(explosionsRequested)
    {
      if lives > 0 {
        lives := lives - 1;
        if lifeTextures != [] {
          lifeTextures := lifeTextures[..|lifeTextures| - 1];
        }
      }
      if lives == 0 {
        active := false;
      }
    }

    /** Removes a life; `gameOver` is the "Game Over" message, reported exactly
        when no life is left. */
    method OnCollisionWithEnemy() returns (gameOver: bool)
      requires CanRemoveLife()
      modifies this
      ensures gameOver <==> lives == 0
      ensures gameOver ==> !active
      ensures old(lives) > 0 ==>
                lives == old(lives) - 1 && lifeTextures == old(lifeTextures)[..|old(lifeTextures)| - 1]
      ensures old(lives) <= 0 ==> lives == old(lives) && lifeTextures == old(lifeTextures)
      ensures active == (old(active) && lives != 0)
      ensures texture == old(texture) && hitPoints == old(hitPoints)
      ensures position == old(position) && velocity == old(velocity)
      ensures desiredDirection == old(desiredDirection) && responsiveness == old(responsiveness)
      ensures confinedToScreen == old(confinedToScreen)
      ensures shotsRequested == old(shotsRequested) && explosionsRequested == old(explosionsRequested)
    {
      RemoveLife();
      gameOver := lives == 0;
    }

    /** Applies `damage`.  A hit that leaves hit points positive does nothing
        more.  A lethal hit costs a life; with none left the ship is deactivated
        and an explosion requested, otherwise the ship is re-initialised at the
        screen centre and activated.  The loads are the resource manager's
        answers during that re-initialisation. */
    method Hit(damage: real, screenCenter: Vec, shipTexture: Option<Texture>, iconLoads: seq<Option<Texture>>)
      requires StartingLives <= |iconLoads|
      modifies this
      ensures lives == LivesAfterHit(old(lives), old(hitPoints) - damage <= 0.0)
      // a hit that is not lethal
      ensures old(hitPoints) - damage > 0.0 ==>
                hitPoints == old(hitPoints) - damage && lives == old(lives) && active == old(active) &&
                position == old(position) && lifeTextures == old(lifeTextures) && texture == old(texture) &&
                explosionsRequested == old(explosionsRequested)
      // a lethal hit on the last life (or with none left)
      ensures old(hitPoints) - damage <= 0.0 && old(lives) <= 1 ==>
                hitPoints == old(hitPoints) - damage && lives == old(lives) - 1 && !active &&
                explosionsRequested == old(explosionsRequested) + 1 &&
                position == old(position) && lifeTextures == old(lifeTextures) && texture == old(texture) &&
                responsiveness == old(responsiveness) && confinedToScreen == old(confinedToScreen)
      // a lethal hit with lives to spare: respawn
      ensures old(hitPoints) - damage <= 0.0 && old(lives) > 1 ==>
                hitPoints == maxHitPoints && lives == StartingLives && active &&
                explosionsRequested == old(explosionsRequested) &&
                texture == shipTexture && confinedToScreen && responsiveness == DefaultResponsiveness &&
                position == (if shipTexture.Some? then SpawnPoint(screenCenter) else screenCenter) &&
                lifeTextures == (if shipTexture.Some? then LoadedIcons(iconLoads[..StartingLives]) else old(lifeTextures))
      ensures old(hitPoints) - damage > 0.0 ==>
                responsiveness == old(responsiveness) && confinedToScreen == old(confinedToScreen)
      ensures velocity == old(velocity) && desiredDirection == old(desiredDirection)
      ensures shotsRequested == old(shotsRequested)
    {
      var remaining := hitPoints;
      remaining := remaining - damage;
      hitPoints := remaining;

      if remaining > 0.0 {
        return;
      }

      lives := lives - 1;
      if lives <= 0 {
        active := false;
        explosionsRequested := explosionsRequested + 1;
      } else {
        var startPosition := screenCenter;
        Initialize(startPosition, shipTexture, iconLoads, screenCenter);
        Activate();
      }
    }

    /** When active, sets the desired direction from the arrow keys and requests
        a primary-weapon shot while SPACE is held; an inactive ship ignores input. */
    method HandleInput(keysDown: set<Key>)
      modifies this
      ensures !old(active) ==>
                desiredDirection == old(desiredDirection) && shotsRequested == old(shotsRequested)
      ensures old(active) ==>
                desiredDirection == Direction(AxisInput(Right in keysDown, Left in keysDown),
                                              AxisInput(Down in keysDown, Up in keysDown))
      ensures old(active) ==>
                shotsRequested == old(shotsRequested) + (if Space in keysDown then 1 else 0)
      ensures old(active) ==>
                (IsDiagonal(desiredDirection) <==>
                   (Right in keysDown) != (Left in keysDown) && (Down in keysDown) != (Up in keysDown))
      ensures lives == old(lives) && lifeTextures == old(lifeTextures) && texture == old(texture)
      ensures active == old(active) && hitPoints == old(hitPoints)
      ensures position == old(position) && velocity == old(velocity)
      ensures responsiveness == old(responsiveness) && confinedToScreen == old(confinedToScreen)
      ensures explosionsRequested == old(explosionsRequested)
    {
      if active {
        var direction := Direction(0, 0);
        if Down in keysDown { direction := direction.(dy := direction.dy + 1); }
        if Up in keysDown { direction := direction.(dy := direction.dy - 1); }
        if Right in keysDown { direction := direction.(dx := direction.dx + 1); }
        if Left in keysDown { direction := direction.(dx := direction.dx - 1); }

        var firePrimary := false;
        if Space in keysDown { firePrimary := true; }

        desiredDirection := direction;
        if firePrimary {
          shotsRequested := shotsRequested + 1;
        }
      }
    }

    /** The confinement block: on each axis, push the sprite off the low edge
        of the screen rectangle padded by 4 and then off its high edge, each
        check reading the position the previous one left, and zero the
        velocity of an axis on which the sprite was not inside. */
    method ClampToScreen(screenWidth: int, screenHeight: int)
      requires texture.Some?
      modifies this
      ensures texture == old(texture)
      ensures var half := HalfDimensions();
              var left, right := Padding as real, (screenWidth - Padding) as real;
              var top, bottom := Padding as real, (screenHeight - Padding) as real;
              position == Vec(ConfineAxis(old(position).x, half.x, left, right),
                              ConfineAxis(old(position).y, half.y, top, bottom)) &&
              velocity.x == (if WithinAxis(old(position).x, half.x, left, right) then old(velocity).x else 0.0) &&
              velocity.y == (if WithinAxis(old(position).y, half.y, top, bottom) then old(velocity).y else 0.0)
      ensures confinedToScreen == old(confinedToScreen)
      ensures lives == old(lives) && lifeTextures == old(lifeTextures)
      ensures active == old(active) && hitPoints == old(hitPoints)
      ensures desiredDirection == old(desiredDirection) && responsiveness == old(responsiveness)
      ensures shotsRequested == old(shotsRequested) && explosionsRequested == old(explosionsRequested)
    {
      var top := Padding;
      var left := Padding;
      var right := screenWidth - Padding;
      var bottom := screenHeight - Padding;

      if position.x - HalfDimensions().x < left as real {
        position := Vec(left as real + HalfDimensions().x, position.y);
        velocity := velocity.(x := 0.0);
      }
      if position.x + HalfDimensions().x > right as real {
        position := Vec(right as real - HalfDimensions().x, position.y);
        velocity := velocity.(x := 0.0);
      }
      if position.y - HalfDimensions().y < top as real {
        position := Vec(position.x, top as real + HalfDimensions().y);
        velocity := velocity.(y := 0.0);
      }
      if position.y + HalfDimensions().y > bottom as real {
        position := Vec(position.x, bottom as real - HalfDimensions().y);
        velocity := velocity.(y := 0.0);
      }
    }

    /** Moves the ship by `blendedVelocity` (the velocity after the engine's
        blending toward the desired one) and, when confined, pushes it back
        into the screen rectangle padded by 4, zeroing the velocity of each
        axis on which it left that rectangle.  Confinement reads the
        half-dimensions through the ship texture, hence CanUpdate(). */
    method Update(blendedVelocity: Vec, screenWidth: int, screenHeight: int)
      requires CanUpdate()
      modifies this
      ensures confinedToScreen == old(confinedToScreen) && texture == old(texture)
      ensures !confinedToScreen ==>
                position == Vec(old(position).x + blendedVelocity.x, old(position).y + blendedVelocity.y) &&
                velocity == blendedVelocity
      ensures confinedToScreen ==>
                var moved := Vec(old(position).x + blendedVelocity.x, old(position).y + blendedVelocity.y);
                var half := HalfDimensions();
                var left, right := Padding as real, (screenWidth - Padding) as real;
                var top, bottom := Padding as real, (screenHeight - Padding) as real;
                position == Vec(ConfineAxis(moved.x, half.x, left, right), ConfineAxis(moved.y, half.y, top, bottom)) &&
                velocity.x == (if WithinAxis(moved.x, half.x, left, right) then blendedVelocity.x else 0.0) &&
                velocity.y == (if WithinAxis(moved.y, half.y, top, bottom) then blendedVelocity.y else 0.0)
      ensures lives == old(lives) && lifeTextures == old(lifeTextures)
      ensures active == old(active) && hitPoints == old(hitPoints)
      ensures desiredDirection == old(desiredDirection) && responsiveness == old(responsiveness)
      ensures shotsRequested == old(shotsRequested) && explosionsRequested == old(explosionsRequested)
    {
      velocity := blendedVelocity;
      position := Vec(position.x + velocity.x, position.y + velocity.y);

      if confinedToScreen {
        ClampToScreen(screenWidth, screenHeight);
      }
    }

    /** Update with confinement skipped for a ship without a texture: callable
        in every state, and the same as Update whenever Update may be called. */
    method UpdateGuarded(blendedVelocity: Vec, screenWidth: int, screenHeight: int)
      modifies this
      ensures confinedToScreen == old(confinedToScreen) && texture == old(texture)
      ensures !(confinedToScreen && texture.Some?) ==>
                position == Vec(old(position).x + blendedVelocity.x, old(position).y + blendedVelocity.y) &&
                velocity == blendedVelocity
      ensures confinedToScreen && texture.Some? ==>
                var moved := Vec(old(position).x + blendedVelocity.x, old(position).y + blendedVelocity.y);
                var half := HalfDimensions();
                var left, right := Padding as real, (screenWidth - Padding) as real;
                var top, bottom := Padding as real, (screenHeight - Padding) as real;
                position == Vec(ConfineAxis(moved.x, half.x, left, right), ConfineAxis(moved.y, half.y, top, bottom)) &&
                velocity.x == (if WithinAxis(moved.x, half.x, left, right) then blendedVelocity.x else 0.0) &&
                velocity.y == (if WithinAxis(moved.y, half.y, top, bottom) then blendedVelocity.y else 0.0)
      ensures lives == old(lives) && lifeTextures == old(lifeTextures)
      ensures active == old(active) && hitPoints == old(hitPoints)
      ensures desiredDirection == old(desiredDirection) && responsiveness == old(responsiveness)
      ensures shotsRequested == old(shotsRequested) && explosionsRequested == old(explosionsRequested)
    {
      velocity := blendedVelocity;
      position := Vec(position.x + velocity.x, position.y + velocity.y);

      if confinedToScreen && texture.Some? {
        ClampToScreen(screenWidth, screenHeight);
      }
    }

    /** What an active ship submits for drawing: the ship sprite at its position
        when it has a texture, and life icon i at (10 + 50 i, 10) for each of
        its lives, taken from the icon list. */
    method Draw() returns (shipAt: Option<Vec>, icons: seq<IconPlacement>)
      requires CanDraw()
      ensures !active ==> shipAt == None && icons == []
      ensures active ==> shipAt == (if texture.Some? then Some(position) else None)
      ensures active ==> |icons| == LoopCount(lives)
      ensures active ==> forall i :: 0 <= i < |icons| ==>
                icons[i] == IconPlacement(lifeTextures[i], Vec((IconMargin + i * HeartSpacing) as real, IconMargin as real), LifeTextureScale)
    {
      shipAt := None;
      icons := [];
      if active {
        if texture.Some? {
          shipAt := Some(position);
        }
        var i := 0;
        while i < lives
          invariant 0 <= i <= LoopCount(lives)
          invariant |icons| == i
          invariant forall k :: 0 <= k < i ==>
                      icons[k] == IconPlacement(lifeTextures[k], Vec((IconMargin + k * HeartSpacing) as real, IconMargin as real), LifeTextureScale)
        {
          var lifePosition := Vec((IconMargin + i * HeartSpacing) as real, IconMargin as real);
          icons := icons + [IconPlacement(lifeTextures[i], lifePosition, LifeTextureScale)];
          i := i + 1;
        }
      }
    }
  }

  /** A ship initialised with every load succeeding has one icon per life and
      can be drawn; one AddLife later it can no longer be drawn. */
  method AddLifeOutrunsIcons(icon: Texture, shipTexture: Texture, screenCenter: Vec)
  {
    var ship := new PlayerShip(100.0);
    var loads := [Some(icon), Some(icon), Some(icon)];
    ship.Initialize(screenCenter, Some(shipTexture), loads, screenCenter);
    ship.Activate();
    assert loads[..StartingLives] == loads;
    LoadedIconsLength(loads);
    assert ship.IconsMatchLives() && ship.CanDraw();
    ship.AddLife();
    assert ship.lives == 4 && |ship.lifeTextures| == 3;
    assert !ship.CanDraw();
  }

  /** A ship whose texture fails to load is still confined to the screen, so
      Update cannot be called on it; the guarded update still can. */
  method MissingTextureBlocksUpdate(screenCenter: Vec)
  {
    var ship := new PlayerShip(100.0);
    ship.Initialize(screenCenter, None, [None, None, None], screenCenter);
    assert ship.confinedToScreen && ship.texture.None?;
    assert !ship.CanUpdate();
    ship.UpdateGuarded(Vec(1.0, 0.0), 800, 600);
    assert ship.position == Vec(screenCenter.x + 1.0, screenCenter.y);
  }

  /** One AddLife and three RemoveLife calls leave a ship with a life and no
      icon, so the next RemoveLife would drop an icon that is not there. */
  method RemoveLifeOutrunsIcons(icon: Texture, shipTexture: Texture, screenCenter: Vec)
  {
    var ship := new PlayerShip(100.0);
    var loads := [Some(icon), Some(icon), Some(icon)];
    ship.Initialize(screenCenter, Some(shipTexture), loads, screenCenter);
    ship.Activate();
    assert loads[..StartingLives] == loads;
    LoadedIconsLength(loads);
    ship.AddLife();
    ship.RemoveLife();
    ship.RemoveLife();
    ship.RemoveLife();
    assert ship.lives == 1 && ship.lifeTextures == [];
    assert !ship.CanRemoveLife();
    ship.RemoveLifeChecked();
    assert ship.lives == 0 && !ship.active;
  }

  /** Two lethal hits on a fresh ship with three lives: it respawns both times
      and still has three lives. */
  method RespawnKeepsThreeLives(icon: Texture, shipTexture: Texture, screenCenter: Vec)
  {
    var ship := new PlayerShip(100.0);
    var loads := [Some(icon), Some(icon), Some(icon)];
    ship.Initialize(screenCenter, Some(shipTexture), loads, screenCenter);
    ship.Activate();
    ship.Hit(100.0, screenCenter, Some(shipTexture), loads);
    assert ship.lives == 3 && ship.active;
    ship.Hit(250.0, screenCenter, Some(shipTexture), loads);
    assert ship.lives == 3 && ship.active && ship.explosionsRequested == 0;
  }
}
