/**
 * Materials: which property names a model's material is read from, where
 * its texture files are looked for, and when it counts as textured.
 */
module Materials {
  import opened Options
  import opened Textures

  /** A model material's properties by name; a name it lacks reads as the empty value. */
  type Properties = map<string, string>

  function Property(properties: Properties, propertyName: string): string
  {
    if propertyName in properties then properties[propertyName] else ""
  }

  /**
   * The value under `primary`, or under `fallback` when that is empty
   * (`albedo`/`diffuse`, `nh`/`normal`, `rmax`/`specular`).
   */
  function Chosen(properties: Properties, primary: string, fallback: string): (value: string)
    ensures Property(properties, primary) != "" ==> value == Property(properties, primary)
    ensures Property(properties, primary) == "" ==> value == Property(properties, fallback)
    ensures value == "" <==> Property(properties, primary) == "" && Property(properties, fallback) == ""
  {
    var first := Property(properties, primary);
    if first != "" then first else Property(properties, fallback)
  }

  predicate StartsWith(s: string, prefix: string)
  {
    |prefix| <= |s| && s[..|prefix|] == prefix
  }

  /** Whether a value is taken as it is: no folder, a leading slash, or already under `Models`. */
  predicate TakenAsIs(modelFolder: string, value: string)
  {
    modelFolder == "" || StartsWith(value, "/") || StartsWith(value, "\\") ||
    StartsWith(value, "Models/") || StartsWith(value, "Models\\")
  }

  /** Where a texture named in a material is loaded from. */
  function TexturePath(modelFolder: string, value: string): (path: string)
    ensures TakenAsIs(modelFolder, value) ==> path == value
    ensures !TakenAsIs(modelFolder, value) ==> path == modelFolder + "/" + value
  {
    if modelFolder == "" || (|value| > 0 && (value[0] == '/' || value[0] == '\\')) then
      value
    else if StartsWith(value, "Models/") || StartsWith(value, "Models\\") then
      value
    else
      modelFolder + "/" + value
  }

  /**
   * The path always ends with the value; it is in the model's folder exactly
   * when the value is not taken as it is.
   */
  lemma {:induction false} TexturePathEndsWithValue(modelFolder: string, value: string)
    ensures var path := TexturePath(modelFolder, value);
      |value| <= |path| && path[|path| - |value|..] == value
    ensures StartsWith(TexturePath(modelFolder, value), modelFolder + "/") || TexturePath(modelFolder, value) == value
    ensures modelFolder != "" && !StartsWith(value, modelFolder + "/") ==>
      (StartsWith(TexturePath(modelFolder, value), modelFolder + "/") <==> !TakenAsIs(modelFolder, value))
  {
    var path := TexturePath(modelFolder, value);
    if !TakenAsIs(modelFolder, value) {
      assert path[..|modelFolder + "/"|] == modelFolder + "/";
      assert path[|path| - |value|..] == value;
    } else {
      assert path[|path| - |value|..] == value;
    }
  }

  class Material {
    var diffuseTexture: Option<Texture>
    var normalTexture: Option<Texture>
    var specularTexture: Option<Texture>
    var name: string
    var hasTexture: bool

    constructor ()
      ensures diffuseTexture == None && normalTexture == None && specularTexture == None && !hasTexture
    {
      diffuseTexture, normalTexture, specularTexture := None, None, None;
      name := "";
      hasTexture := false;
    }

    /**
     * `loadFromGEMMaterial`: each of the three textures is loaded through
     * the cache from the resolved path of its chosen property, or left
     * alone when that property is empty; only a diffuse texture that
     * decoded makes the material textured.
     */
    method LoadFromGEMMaterial(properties: Properties, manager: TextureManager, modelFolder: string,
                               diffuse: Option<Image>, normal: Option<Image>, specular: Option<Image>)
      requires manager.Valid()
      requires diffuse.Some? ==> Stageable(diffuse.value)
      requires normal.Some? ==> Stageable(normal.value)
      requires specular.Some? ==> Stageable(specular.value)
      modifies this, manager
      ensures manager.Valid() && name == old(name)
      ensures Chosen(properties, "albedo", "diffuse") == "" ==> hasTexture == old(hasTexture)
      ensures Chosen(properties, "albedo", "diffuse") != "" ==>
        diffuseTexture.Some? && hasTexture == (old(hasTexture) || diffuseTexture.value.loaded)
      ensures Loaded(manager.textures, diffuseTexture, old(diffuseTexture), Wanted(modelFolder, Chosen(properties, "albedo", "diffuse")))
      ensures Loaded(manager.textures, normalTexture, old(normalTexture), Wanted(modelFolder, Chosen(properties, "nh", "normal")))
      ensures Loaded(manager.textures, specularTexture, old(specularTexture), Wanted(modelFolder, Chosen(properties, "rmax", "specular")))
    {
      var diffuseFile := Wanted(modelFolder, Chosen(properties, "albedo", "diffuse"));
      var normalFile := Wanted(modelFolder, Chosen(properties, "nh", "normal"));
      var specularFile := Wanted(modelFolder, Chosen(properties, "rmax", "specular"));
      LoadFiles(manager, diffuseFile, normalFile, specularFile, diffuse, normal, specular);
    }

    /** The three loads of `loadFromGEMMaterial`, once the files are resolved. */
    method LoadFiles(manager: TextureManager, diffuseFile: Option<string>, normalFile: Option<string>, specularFile: Option<string>,
                     diffuse: Option<Image>, normal: Option<Image>, specular: Option<Image>)
      requires manager.Valid()
      requires diffuse.Some? ==> Stageable(diffuse.value)
      requires normal.Some? ==> Stageable(normal.value)
      requires specular.Some? ==> Stageable(specular.value)
      modifies this, manager
      ensures manager.Valid() && name == old(name)
      ensures diffuseFile.None? ==> hasTexture == old(hasTexture)
      ensures diffuseFile.Some? ==> diffuseTexture.Some? && hasTexture == (old(hasTexture) || diffuseTexture.value.loaded)
      ensures Loaded(manager.textures, diffuseTexture, old(diffuseTexture), diffuseFile)
      ensures Loaded(manager.textures, normalTexture, old(normalTexture), normalFile)
      ensures Loaded(manager.textures, specularTexture, old(specularTexture), specularFile)
    {
      var diffuseFound := LoadWanted(diffuseFile, manager, diffuse);
      ghost var cache1 := manager.textures;
      var normalFound, specularFound := LoadPair(manager, normalFile, specularFile, normal, specular);
      LoadedKept(cache1, manager.textures, diffuseFound, None, diffuseFile);
      Assign(diffuseFound, normalFound, specularFound);
    }

    /** The normal and specular loads. */
    static method LoadPair(manager: TextureManager, normalFile: Option<string>, specularFile: Option<string>,
                           normal: Option<Image>, specular: Option<Image>)
      returns (normalFound: Option<Texture>, specularFound: Option<Texture>)
      requires manager.Valid()
      requires normal.Some? ==> Stageable(normal.value)
      requires specular.Some? ==> Stageable(specular.value)
      modifies manager
      ensures manager.Valid() && CacheGrows(old(manager.textures), manager.textures)
      ensures Loaded(manager.textures, normalFound, None, normalFile)
      ensures Loaded(manager.textures, specularFound, None, specularFile)
    {
      normalFound := LoadWanted(normalFile, manager, normal);
      ghost var cache := manager.textures;
      specularFound := LoadWanted(specularFile, manager, specular);
      LoadedKept(cache, manager.textures, normalFound, None, normalFile);
    }

    /** Each texture found replaces the material's; a decoded diffuse texture makes it textured. */
    method Assign(diffuseFound: Option<Texture>, normalFound: Option<Texture>, specularFound: Option<Texture>)
      modifies this
      ensures name == old(name)
      ensures diffuseTexture == (if diffuseFound.Some? then diffuseFound else old(diffuseTexture))
      ensures normalTexture == (if normalFound.Some? then normalFound else old(normalTexture))
      ensures specularTexture == (if specularFound.Some? then specularFound else old(specularTexture))
      ensures hasTexture == (old(hasTexture) || (diffuseFound.Some? && diffuseFound.value.loaded))
    {
      if diffuseFound.Some? {
        diffuseTexture := diffuseFound;
        if diffuseFound.value.loaded {
          hasTexture := true;
        }
      }
      if normalFound.Some? {
        normalTexture := normalFound;
      }
      if specularFound.Some? {
        specularTexture := specularFound;
      }
    }
  }

  /** The file a property asks for: none for an empty value, else its resolved path. */
  function Wanted(modelFolder: string, value: string): Option<string>
  {
    if value == "" then None else Some(TexturePath(modelFolder, value))
  }

  /**
   * A texture slot after loading: left as it was when no file is asked
   * for, otherwise the cache's entry for the file.
   */
  ghost predicate Loaded(textures: map<string, Texture>, slot: Option<Texture>, before: Option<Texture>, file: Option<string>)
  {
    if file.None? then slot == before else file.value in textures && slot == Some(textures[file.value])
  }

  /** Later loads do not disturb an earlier slot: cached entries stay. */
  lemma LoadedKept(before: map<string, Texture>, after: map<string, Texture>, slot: Option<Texture>, previous: Option<Texture>, file: Option<string>)
    requires Loaded(before, slot, previous, file) && CacheGrows(before, after)
    ensures Loaded(after, slot, previous, file)
  {
  }

  /** One property's load: nothing when no file is asked for, else the cache's texture for the file. */
  method LoadWanted(file: Option<string>, manager: TextureManager, decoded: Option<Image>) returns (found: Option<Texture>)
    requires manager.Valid() && (decoded.Some? ==> Stageable(decoded.value))
    modifies manager
    ensures manager.Valid() && CacheGrows(old(manager.textures), manager.textures)
    ensures Loaded(manager.textures, found, None, file)
    ensures file.Some? && file.value !in old(manager.textures) ==> found.value.loaded == decoded.Some?
  {
    if file.None? {
      return None;
    }
    var texture := manager.Load(file.value, decoded);
    found := Some(texture);
  }

  /** Entries already cached stay cached under the same texture. */
  ghost predicate CacheGrows(before: map<string, Texture>, after: map<string, Texture>)
  {
    forall n :: n in before ==> n in after && after[n] == before[n]
  }

  class MaterialManager {
    var materials: seq<Material>
    const textureManager: TextureManager

    constructor (manager: TextureManager)
      ensures materials == [] && textureManager == manager
    {
      materials := [];
      textureManager := manager;
    }

    /**
     * `createMaterial`: a new material, loaded from the properties, is
     * appended and returned; it is textured exactly when its diffuse
     * texture decoded.
     */
    method CreateMaterial(properties: Properties, modelFolder: string,
                          diffuse: Option<Image>, normal: Option<Image>, specular: Option<Image>)
      returns (material: Material)
      requires textureManager.Valid()
      requires diffuse.Some? ==> Stageable(diffuse.value)
      requires normal.Some? ==> Stageable(normal.value)
      requires specular.Some? ==> Stageable(specular.value)
      modifies this, textureManager
      ensures textureManager.Valid() && fresh(material) && materials == old(materials) + [material]
      ensures material.hasTexture <==> material.diffuseTexture.Some? && material.diffuseTexture.value.loaded
      ensures Loaded(textureManager.textures, material.diffuseTexture, None, Wanted(modelFolder, Chosen(properties, "albedo", "diffuse")))
      ensures Loaded(textureManager.textures, material.normalTexture, None, Wanted(modelFolder, Chosen(properties, "nh", "normal")))
      ensures Loaded(textureManager.textures, material.specularTexture, None, Wanted(modelFolder, Chosen(properties, "rmax", "specular")))
    {
      material := new Material();
      material.LoadFromGEMMaterial(properties, textureManager, modelFolder, diffuse, normal, specular);
      materials := materials + [material];
    }

    /** `cleanup`: no materials are left. */
    method Cleanup()
      modifies this
      ensures materials == []
    {
      materials := [];
    }
  }
}
